/**
One supervisor tick: the journal's barrier first, then durable intent, then repairs that keep
the majority, with the delays the supervisor remembers between ticks.
 */
module Supervision {
  import opened Options
  import opened Journals
  import opened Worlds
  import opened Hosts
  import opened Intents
  import opened Envelopes
  import opened Statuses
  import opened Revivals
  import opened Stops
  import opened Members
  import opened Creations
  import Backoff

  // ---- a cluster that is to stop ----------------------------------------------------------------------

  /** Durable stop intent first, then every server that is seen running, last member first. */
  method StopLocked(h: Host) returns (ok: bool)
    requires h.Valid()
    modifies h`w, h`up, h`log, h`call
    ensures h.Valid() && (h.up ==> old(h.up)) && OnlyStops(old(h.log), h.log)
    ensures h.w.files == old(h.w).files.(desired := h.w.files.desired) && (VolumesComplete(old(h.w)) ==> VolumesComplete(h.w))
    ensures h.w.files.desired == old(h.w).files.desired || h.w.files.desired == Some(IntentOf(old(h.w).files).(running := false))
    ensures h.log != old(h.log) ==> ReadableIntent(h.w.files) && !IntentOf(h.w.files).running
    ensures ok ==> AllDown(h.w)
    ensures h.reliable && old(h.w).files.config && ReadableIntent(old(h.w).files) ==> ok && AllDown(h.w)
    ensures AllDown(old(h.w)) ==> h.log == old(h.log)
    ensures h.reliable && AllDown(old(h.w)) ==> h.w.members == old(h.w).members
  {
    ok := h.w.files.config && h.up;
    if !ok {
      return;
    }
    ok := MarkClusterStopped(h);
    if ok {
      var pf;
      ghost var w1 := h.w;
      ok, pf := TakePreflight(h, true);
      EvolvedKeepsFiles(w1, h.w, {}, h.stable);
      if ok {
        hide Evolved, Lineal, Guard, ValidDesired;
        ok := StopSeen(h, pf);
      }
    }
  }

  method StopSeen(h: Host, pf: Preflight) returns (ok: bool)
    requires h.Valid() && Seen(pf, h.w, h.stable)
    modifies h`w, h`up, h`log
    ensures !pf.records[1].Running? && !pf.records[2].Running? && !pf.records[3].Running? ==> h.w == old(h.w) && h.log == old(h.log)
    ensures h.Valid() && (h.up ==> old(h.up)) && OnlyStops(old(h.log), h.log) && h.w.files == old(h.w).files
    ensures VolumesComplete(old(h.w)) ==> VolumesComplete(h.w)
    ensures ok ==> AllDown(h.w)
    ensures h.reliable && SeenExactly(pf, old(h.w)) ==> ok
    ensures h.reliable && SeenExactly(pf, old(h.w)) && AllDown(old(h.w)) ==> h.w == old(h.w) && h.log == old(h.log)
  {
    ok := StopRecorded(h, pf);
  }

  // ---- one member is to stay down ------------------------------------------------------------------------

  /** Stop the intended member while it is running but not ready; the other two must be a proven majority. */
  method StopUnhealthy(h: Host, i: Id) returns (ok: bool)
    requires h.Valid() && (h.stable ==> OthersUp(h.w, i))
    modifies h`readings, h`reports, h`w, h`up, h`log
    ensures h.Valid() && MemberWork(h, i) && NoRunOf(old(h.log), h.log, i)
    ensures h.log != old(h.log) ==> MajoritySeen(h, i)
    ensures h.reliable && Ground(old(h.w)) && Up(old(h.w), i) && OthersHealthy(old(h.w), i)
            ==> ok && h.w == SetEnvelope(old(h.w), i, Stopped)
  {
    hide KeptWhole, Evolved, Confined, Quorate, Careful, OthersUp, Watched, Lineal;
    var go;
    ok, go := JudgeUnhealthy(h, i);
    WatchingIsWork(old(h.w), h.w, h.log, i, h.stable);
    NothingRan(h.log, i);
    if go {
      ghost var w2, l2 := h.w, h.log;
      ok := StopAndWait(h, i);
      ChainWork(h, old(h.w), old(h.log), w2, l2, h.w, h.log, i);
    }
  }

  /** Whether the intended member is still running, and the others are a proven majority. */
  method JudgeUnhealthy(h: Host, i: Id) returns (ok: bool, go: bool)
    requires h.Valid()
    modifies h`reports, h`w
    ensures h.Valid() && h.OnlyWatched() && (go ==> ok && MajoritySeen(h, i))
    ensures h.reliable && Ground(h.w) && Up(h.w, i) && OthersHealthy(h.w, i) ==> go
  {
    hide KeptWhole, Watched;
    h.reports := None;
    var pf;
    ok, pf := PreflightTopology(h, i, true);
    go := ok && pf.records[i].Running?;
    if go {
      ghost var w1 := h.w;
      ok := EtcdMajorityHolds(h, i);
      WatchedTrans(old(h.w), w1, h.w, h.stable);
      go := ok;
    }
  }

  /** Since then, member i was not started. */
  ghost predicate NoRunOf(was: seq<Entry>, log: seq<Entry>, i: int) {
    && was <= log
    && (forall k | |was| <= k < |log| :: log[k].cmd.RunServer? ==> log[k].cmd.id != i)
  }

  lemma NothingRan(log: seq<Entry>, i: int)
    ensures NoRunOf(log, log, i)
  {
  }

  lemma NoRunTrans(a: seq<Entry>, b: seq<Entry>, c: seq<Entry>, i: int)
    requires NoRunOf(a, b, i) && NoRunOf(b, c, i)
    ensures NoRunOf(a, c, i)
  {
    forall k | |a| <= k < |c| && c[k].cmd.RunServer? ensures c[k].cmd.id != i {
      if k < |b| {
        assert c[k] == b[k];
      }
    }
  }

  /** The one other member that is not ready, if there is exactly one. */
  method FindDown(s: Status, intentional: Id) returns (ok: bool, target: Id)
    ensures ok ==> target != intentional && !Ready(s[target])
    ensures ok ==> forall j | 1 <= j <= 3 :: j != intentional && j != target ==> Ready(s[j])
    ensures (exists j, k | 1 <= j <= 3 && 1 <= k <= 3 ::
               j != intentional && k != intentional && j != k && Ready(s[j]) && !Ready(s[k])) ==> ok
  {
    var found: int := 0;
    target := SEED;
    for i := 1 to 4
      invariant 0 <= found < i
      invariant found == 0 ==> forall j | 1 <= j < i :: j != intentional ==> Ready(s[j])
      invariant found > 0 ==> found != intentional && !Ready(s[found])
      invariant found > 0 ==> forall j | 1 <= j < i :: j != intentional && j != found ==> Ready(s[j])
    {
      if i != intentional && (!s[i].node || !s[i].api || !s[i].runtime.Running?) {
        if found > 0 {
          return false, target;
        }
        found := i;
      }
    }
    if found == 0 {
      return false, target;
    }
    return true, found;
  }

  /** With one member intentionally down and another one down too, bring back only the other one. */
  method ReviveOther(h: Host, s: Status, intentional: Id, ghost resetting: bool) returns (ok: bool, ghost target: Id)
    requires h.Valid() && HonestStatus(s, h.w, resetting, h.stable)
    modifies h`readings, h`reports, h`efforts, h`w, h`up, h`log
    ensures h.Valid() && MemberWork(h, target) && target != intentional
    ensures h.reliable && ExactStatus(s, old(h.w)) && Ground(old(h.w)) && AddressesFree(old(h.w), h.stableIP) && Resumes(old(h.w), intentional)
            ==> ok && OthersHealthy(h.w, intentional)
  {
    if ExactStatus(s, h.w) && Resumes(h.w, intentional) {
      ResumesIsFound(s, h.w, intentional);
    }
    target := if intentional == 1 then 2 else 1;
    WatchedNothing(h.w, h.stable);
    WatchingIsWork(h.w, h.w, h.log, target, h.stable);
    var found, down := FindDown(s, intentional);
    if !found || s[down].runtime.Running? {
      return false, target;
    }
    target := down;
    if h.reliable && ExactStatus(s, h.w) && Ground(h.w) && Resumes(h.w, intentional) {
      DownIsResumed(s, h.w, h.stableIP, intentional, down);
    }
    ok := ReviveMember(h, down);
  }

  /** One member is to stay down with its envelope kept, one other is down over its database, and the third is ready. */
  predicate Resumes(w: World, i: Id) {
    && !w.members[i].envelope.Missing?
    && (exists j, k | 1 <= j <= 3 && 1 <= k <= 3 ::
          j != i && k != i && j != k && Healthy(w.members[j]) && !Up(w, k) && Supplied(w, k))
  }

  lemma ResumesIsFound(s: Status, w: World, i: Id)
    requires ExactStatus(s, w) && Resumes(w, i)
    ensures exists j, k | 1 <= j <= 3 && 1 <= k <= 3 :: j != i && k != i && j != k && Ready(s[j]) && !Ready(s[k])
  {
    var j, k :| 1 <= j <= 3 && 1 <= k <= 3 && j != i && k != i && j != k && Healthy(w.members[j]) && !Up(w, k) && Supplied(w, k);
    assert Ready(s[j]) && !Ready(s[k]);
  }

  lemma DownIsResumed(s: Status, w: World, stableIP: seq<nat>, i: Id, down: Id)
    requires |stableIP| == 4 && forall j, k | 1 <= j < k <= 3 :: stableIP[j] != stableIP[k]
    requires ExactStatus(s, w) && Ground(w) && Resumes(w, i)
    requires down != i && !Ready(s[down]) && !s[down].runtime.Running?
    requires forall j | 1 <= j <= 3 :: j != i && j != down ==> Ready(s[j])
    ensures !Up(w, down) && Supplied(w, down)
    ensures forall j | 1 <= j <= 3 :: j != down ==> !w.members[j].envelope.Missing?
    ensures OthersHealthy(StartedWorld(w, stableIP, down), i)
  {
    StartedHealthyIf(w, stableIP, down);
    forall j | 1 <= j <= 3 && j != i && j != down ensures Healthy(w.members[j]) {
    }
    var after := StartedWorld(w, stableIP, down);
    var launched := LaunchedWorld(w, stableIP, down);
    assert forall j | 1 <= j <= 3 && j != down :: launched.members[j] == w.members[j];
    assert forall j | 1 <= j <= 3 && j != i && j != down :: after.members[j] == w.members[j];
  }

  lemma StartedHealthyIf(w: World, stableIP: seq<nat>, i: Id)
    requires |stableIP| == 4 && forall j, k | 1 <= j < k <= 3 :: stableIP[j] != stableIP[k]
    requires Ground(w)
    ensures !Up(w, i) && Supplied(w, i) ==> Healthy(StartedWorld(w, stableIP, i).members[i])
  {
    if !Up(w, i) && Supplied(w, i) {
      StartedHealthy(w, stableIP, i);
    }
  }

  method ReviveMember(h: Host, i: Id) returns (ok: bool)
    requires h.Valid()
    modifies h`readings, h`reports, h`efforts, h`w, h`up, h`log
    ensures h.Valid() && MemberWork(h, i)
    ensures h.reliable && Ground(old(h.w)) && AddressesFree(old(h.w), h.stableIP) && !Up(old(h.w), i) && Supplied(old(h.w), i)
            && (forall j | 1 <= j <= 3 :: j != i ==> !old(h.w).members[j].envelope.Missing?)
            ==> ok && h.w == StartedWorld(old(h.w), h.stableIP, i)
  {
    hide Evolved, Confined, Quorate, Careful, OthersUp, Watched, Lineal, AddressesFree, StartedWorld;
    var pf;
    ok, pf := PreflightTopology(h, i, true);
    WatchingIsWork(old(h.w), h.w, h.log, i, h.stable);
    if !ok {
      return;
    }

    ghost var w1, l1 := h.w, h.log;
    assert MemberSeen(pf, h.w, i, h.stable);
    ok := ReviveRecorded(h, i, pf.records[i]);
    ChainWork(h, old(h.w), old(h.log), w1, l1, h.w, h.log, i);
  }

  method ReviveRecorded(h: Host, i: Id, record: Envelope) returns (ok: bool)
    requires h.Valid() && (h.stable && !record.Running? ==> !Up(h.w, i))
    modifies h`readings, h`reports, h`efforts, h`w, h`up, h`log
    ensures h.Valid() && MemberWork(h, i)
    ensures h.reliable && Ground(old(h.w)) && AddressesFree(old(h.w), h.stableIP) && !Up(old(h.w), i) && Supplied(old(h.w), i)
            && record == old(h.w).members[i].envelope
            ==> ok && h.w == StartedWorld(old(h.w), h.stableIP, i)
  {
    hide Evolved, Confined, Quorate, Careful, OthersUp, Watched, Lineal, AddressesFree, StartedWorld, LaunchedWorld, Rested, Healthy, AllHealthy,
         Reconciled;
    SameEnvelope(h.w, i);
    if h.reliable && Ground(h.w) {
      StartedHealthyIf(h.w, h.stableIP, i);
      LaunchThenRest(h.w, h.stableIP, i);
    }
    ok := ReconcileMember(h, i, record);
    if ok {
      ghost var w2, l2 := h.w, h.log;
      ok := AwaitMember(h, i);
      ChainWork(h, old(h.w), old(h.log), w2, l2, h.w, h.log, i);
    }
  }

  method AwaitMember(h: Host, i: Id) returns (ok: bool)
    requires h.Valid()
    modifies h`w
    ensures h.Valid() && MemberWork(h, i)
    ensures h.reliable ==> h.w == Rested(old(h.w)) && (Healthy(h.w.members[i]) ==> ok)
  {
    ok := WaitMemberReady(h, i);
    WatchingIsWork(old(h.w), h.w, h.log, i, h.stable);
  }

  /** Since then, no command was about the server of member i. */
  ghost predicate Spared(was: seq<Entry>, log: seq<Entry>, i: int) {
    && was <= log
    && (forall k | |was| <= k < |log| :: log[k].cmd.RunServer? || log[k].cmd.StopServer? || log[k].cmd.DeleteServer? ==> log[k].cmd.id != i)
  }

  /** What entitles a tick to stop member i as intended: the full etcd check with all ready, else the degraded one. */
  ghost predicate Entitled(h: Host, s: Status, i: Id)
    reads h
  {
    if AllReady(s) then TopologySeen(h)
    else OthersReady(s, i) ==> MajoritySeen(h, i)
  }

  /** What one tick does to enforce an intentional stop. */
  method EnforceIntent(h: Host, s: Status, i: Id, ghost resetting: bool) returns (ok: bool)
    requires h.Valid() && HonestStatus(s, h.w, resetting, h.stable)
    modifies h`readings, h`reports, h`efforts, h`w, h`up, h`log
    ensures h.Valid() && Preserved(h) && NoRunOf(old(h.log), h.log, i) && h.w.files == old(h.w).files
    ensures OthersReady(s, i) && !s[i].runtime.Running? ==> ok && h.w == old(h.w) && h.log == old(h.log)
    ensures h.log != old(h.log) ==> Entitled(h, s, i)
    ensures !OthersReady(s, i) ==> Spared(old(h.log), h.log, i)
    ensures h.reliable && ExactStatus(s, old(h.w)) && Ground(old(h.w)) && OthersHealthy(old(h.w), i)
            ==> ok && !Up(h.w, i) && OthersHealthy(h.w, i)
    ensures h.reliable && ExactStatus(s, old(h.w)) && Ground(old(h.w)) && AddressesFree(old(h.w), h.stableIP) && Resumes(old(h.w), i)
            ==> ok && OthersHealthy(h.w, i)
  {
    hide KeptWhole, Evolved, Confined, Quorate, Careful, OthersUp, Watched, Lineal;
    if h.stable {
      OthersAreUpIfReady(s, h.w, i, resetting);
    }
    StillUntouched(h.w, h.log, h.stable);
    NothingRan(h.log, i);
    var all := AllMembersReady(s);
    var others := OtherMembersReady(s, i);
    if all {
      ok := StopIntended(h, i);
    } else if others && s[i].runtime.Running? {
      ok := StopUnhealthy(h, i);
      EvolvedKeepsFiles(old(h.w), h.w, {i}, h.stable);
    } else if others {
      ok := true;
    } else {
      ghost var target: Id;
      ok, target := ReviveOther(h, s, i, resetting);
      EvolvedKeepsFiles(old(h.w), h.w, {target}, h.stable);
      OtherRan(old(h.log), h.log, old(h.w), target, i, h.stable);
    }
  }

  lemma OtherRan(log: seq<Entry>, now: seq<Entry>, w: World, target: int, i: int, stable: bool)
    requires Confined(log, now, w, {target}, stable) && target != i
    ensures NoRunOf(log, now, i) && Spared(log, now, i)
  {
  }

  method StopIntended(h: Host, i: Id) returns (ok: bool)
    requires h.Valid()
    modifies h`readings, h`reports, h`w, h`up, h`log
    ensures h.Valid() && Preserved(h) && NoRunOf(old(h.log), h.log, i) && h.w.files == old(h.w).files
    ensures h.log != old(h.log) ==> TopologySeen(h)
    ensures h.reliable && Ground(old(h.w)) && AllHealthy(old(h.w)) ==> ok && h.w == SetEnvelope(old(h.w), i, Stopped)
  {
    var restartNeeded;
    ok, restartNeeded := StopMember(h, i);
    EvolvedKeepsFiles(old(h.w), h.w, {i}, h.stable);
  }

  // ---- repairs -----------------------------------------------------------------------------------------------

  method JudgeRepair(h: Host, i: Id) returns (ok: bool)
    requires h.Valid()
    modifies h`readings, h`reports, h`w
    ensures h.Valid() && h.OnlyWatched()
    ensures ok ==> MajoritySeen(h, i) && OthersSeenReady(h, i)
    ensures h.stable && ok ==> OthersUp(h.w, i)
    ensures h.reliable && Ground(h.w) && Up(h.w, i) && OthersHealthy(h.w, i) ==> ok
  {
    hide KeptWhole;
    h.reports := None;
    var pf;
    ok, pf := PreflightTopology(h, i, false);
    if !ok {
      return;
    }

    ghost var w1 := h.w;
    var read, s := ReadStatus(h);
    WatchedTrans(old(h.w), w1, h.w, h.stable);
    if !read {
      return false;
    }
    if h.stable {
      OthersAreUpIfReady(s, h.w, i, w1.helpers[RESET].Running?);
    }
    var others := OtherMembersReady(s, i);
    if !others {
      return false;
    }

    ghost var w2 := h.w;
    ok := EtcdMajorityHolds(h, i);
    WatchedTrans(old(h.w), w2, h.w, h.stable);
    WatchingIsWork(w2, h.w, h.log, i, h.stable);
  }

  /** Replace a running member that is not ready; whatever fails after the stop, it is started again. */
  method RepairMember(h: Host, i: Id) returns (ok: bool)
    requires h.Valid()
    modifies h`readings, h`reports, h`efforts, h`w, h`up, h`log
    ensures h.Valid() && MemberWork(h, i)
    ensures h.log != old(h.log) ==> MajoritySeen(h, i) && Answered(old(h.efforts), h.efforts, Returning(i))
    ensures h.reliable && Cyclable(old(h.w), h.stableIP, i) ==> ok && AllHealthy(h.w)
  {
    hide KeptWhole;
    ok := JudgeRepair(h, i);
    WatchingIsWork(old(h.w), h.w, h.log, i, h.stable);
    if !ok {
      return;
    }

    ghost var w1, l1 := h.w, h.log;
    RepairWorks(h.w, h.stableIP, i);
    ghost var stopped: bool;
    ok, stopped := StopThenStart(h, i);
    ChainWork(h, old(h.w), old(h.log), w1, l1, h.w, h.log, i);
  }

  /** A member that runs, but may not be ready, while everything else is in order. */
  ghost predicate Cyclable(w: World, stableIP: seq<nat>, i: Id)
    requires |stableIP| == 4
  {
    Ground(w) && Up(w, i) && OthersHealthy(w, i) && AddressesFree(w, stableIP) && Supplied(w, i)
  }

  /** A fault-free stop leaves a member that a fault-free start brings back. */
  lemma RepairWorks(w: World, stableIP: seq<nat>, i: Id)
    requires |stableIP| == 4 && forall j, k | 1 <= j < k <= 3 :: stableIP[j] != stableIP[k]
    ensures Cyclable(w, stableIP, i)
            ==> && w.network && VolumesComplete(w) && w.files.config && Up(w, i) && OthersHealthy(w, i)
                && Returnable(SetEnvelope(w, i, Stopped), stableIP, i)
                && CycledWorld(w, stableIP, i) == StartedWorld(SetEnvelope(w, i, Stopped), stableIP, i)
                && AllHealthy(CycledWorld(w, stableIP, i))
  {
    if Cyclable(w, stableIP, i) {
      StoppedStaysFree(w, stableIP, i);
      StartedHealthy(SetEnvelope(w, i, Stopped), stableIP, i);
    }
  }

  /** A member that is down over a volume it can come up on, while everything else is in order. */
  ghost predicate Returnable(w: World, stableIP: seq<nat>, i: Id)
    requires |stableIP| == 4
  {
    && Ground(w) && !Up(w, i) && OthersHealthy(w, i) && AddressesFree(w, stableIP) && Supplied(w, i)
    && w.network && !w.members[i].data.Absent?
  }

  method StopThenStart(h: Host, i: Id) returns (ok: bool, ghost stopped: bool)
    requires h.Valid() && (h.stable ==> OthersUp(h.w, i))
    modifies h`readings, h`efforts, h`w, h`up, h`log
    ensures h.Valid() && MemberWork(h, i)
    ensures Answered(old(h.efforts), h.efforts, Returning(i))
    ensures stopped && !ok ==> h.efforts == old(h.efforts) + [Returning(i), Returning(i)]
    ensures h.reliable && Cyclable(old(h.w), h.stableIP, i) ==> ok && h.w == CycledWorld(old(h.w), h.stableIP, i)
  {
    hide KeptWhole, Evolved, Confined, Quorate, Careful, OthersUp, Watched, Lineal, OthersHealthy, AllHealthy, Cyclable, Returnable, StartedWorld,
         SetEnvelope, CycledWorld;
    RepairWorks(h.w, h.stableIP, i);
    ok := StopAndWait(h, i);
    stopped := ok;
    ghost var w1, l1 := h.w, h.log;
    var started := StartTwice(h, i, ok);
    ChainWork(h, old(h.w), old(h.log), w1, l1, h.w, h.log, i);
    ok := ok && started;
  }

  /** A failed start after a clean stop is tried once more, but stays a failure. */
  method StartTwice(h: Host, i: Id, retry: bool) returns (ok: bool)
    requires h.Valid()
    modifies h`readings, h`efforts, h`w, h`up, h`log
    ensures h.Valid() && MemberWork(h, i)
    ensures h.efforts == old(h.efforts) + (if ok || !retry then [Returning(i)] else [Returning(i), Returning(i)])
    ensures h.reliable && Returnable(old(h.w), h.stableIP, i) ==> ok && h.w == StartedWorld(old(h.w), h.stableIP, i)
  {
    hide Evolved, Confined, Quorate, Careful, OthersUp, Watched, Lineal, AddressesFree, OthersHealthy, AllHealthy, Ground, StartedWorld, SetEnvelope;
    ok := StartMember(h, i);
    if !ok && retry {
      ghost var w1, l1 := h.w, h.log;
      var again := StartMember(h, i);
      ChainWork(h, old(h.w), old(h.log), w1, l1, h.w, h.log, i);
    }
  }

  /** Running intent is saved before anything else is looked at. */
  method StartLocked(h: Host) returns (ok: bool)
    requires h.Valid()
    modifies h`readings, h`reports, h`efforts, h`w, h`up, h`log, h`call
    ensures h.Valid() && Preserved(h) && CreationFiles(old(h.w).files, h.w.files)
    ensures h.log != old(h.log) || ok ==> IntentFirst(h.w.files)
    ensures h.reliable && old(h.w).files.config && ReadableIntent(old(h.w).files) ==> IntentFirst(h.w.files)
    ensures h.reliable && Creatable(old(h.w)) && Reviving(old(h.w), h.stableIP, 1) && !Blocked(old(h.w))
            ==> ok && AllHealthy(h.w)
    ensures h.reliable && Creatable(old(h.w)) && Reviving(old(h.w), h.stableIP, 1) && Blocked(old(h.w))
            ==> !ok && !AllHealthy(h.w)
  {
    hide Quorate, Careful, Reviving, Blocked, SeveralUnhealthy, AllHealthy;
    StillUntouched(h.w, h.log, h.stable);
    RevivingGround(h.w, h.stableIP);
    if !h.w.files.config {
      return false;
    }
    ok := MarkClusterRunning(h);
    FilesKeep(old(h.w), h.w, h.log);
    if ok {
      ghost var w1, l1 := h.w, h.log;
      RevivingWhateverFiles(old(h.w), w1, h.stableIP, NOTHING_SEEN);
      ok := CreateLocked(h);
      StitchCareful(old(h.w), old(h.log), w1, l1, h.w, h.log, h.stable);
    }
  }

  /** The members whose node, API or runtime is not ready, in order. */
  function Unready(s: Status): (ids: seq<Id>)
    ensures forall i: Id :: i in ids <==> 1 <= i <= 3 && !Ready(s[i])
    ensures |ids| == 1 ==> !Ready(s[ids[0]]) && OthersReady(s, ids[0])
  {
    (if Ready(s[1]) then [] else [1]) + (if Ready(s[2]) then [] else [2]) + (if Ready(s[3]) then [] else [3])
  }

  method FindUnready(s: Status) returns (unready: seq<Id>)
    ensures unready == Unready(s)
  {
    unready := [];
    for i := 1 to 4
      invariant unready == (if i > 1 && !Ready(s[1]) then [1] else []) + (if i > 2 && !Ready(s[2]) then [2] else [])
                           + (if i > 3 && !Ready(s[3]) then [3] else [])
    {
      if !s[i].node || !s[i].api || !s[i].runtime.Running? {
        unready := unready + [i];
      }
    }
  }

  // ---- what the supervisor notes ---------------------------------------------------------------------------------

  /** All ready: nothing is remembered against any member below `i`. */
  function Forgotten(i: int): (r: seq<Backoff.Event>) {
    if i <= 1 then [] else Forgotten(i - 1) + [Backoff.Recovered(i - 1), Backoff.Settled(i - 1)]
  }

  method ForgetTroubles(sup: Backoff.SupervisorState, now: int)
    requires sup.Valid()
    modifies sup
    ensures sup.Valid() && sup.history == old(sup.history) + Forgotten(4)
  {
    for i := 1 to 4
      invariant sup.Valid() && sup.history == old(sup.history) + Forgotten(i)
    {
      sup.RecordRepair(i, false, now, false, now);
      sup.ClearStartup(i);
      assert Forgotten(i + 1) == Forgotten(i) + [Backoff.Recovered(i), Backoff.Settled(i)];
    }
  }

  /** The starts of the first `k` of these members, as far as they are not running. */
  function Launches(s: Status, ids: seq<Id>, k: nat, now: int, grace: int): (r: seq<Backoff.Event>)
    requires k <= |ids|
  {
    if k == 0 then []
    else Launches(s, ids, k - 1, now, grace)
         + if s[ids[k - 1]].runtime.Running? then [] else [Backoff.Launched(ids[k - 1], now, grace)]
  }

  method NoteStarts(sup: Backoff.SupervisorState, s: Status, unready: seq<Id>, grace: int, now: int)
    requires sup.Valid()
    modifies sup
    ensures sup.Valid() && sup.history == old(sup.history) + Launches(s, unready, |unready|, now, grace)
  {
    for k := 0 to |unready|
      invariant sup.Valid() && sup.history == old(sup.history) + Launches(s, unready, k, now, grace)
    {
      if !s[unready[k]].runtime.Running? {
        sup.RecordStartup(unready[k], grace, now);
      }
    }
  }

  /** The one member a tick may have to repair: it runs, is not ready, and both others are. */
  function RepairTarget(s: Status): (r: Option<Id>) {
    if |Unready(s)| == 1 && s[Unready(s)[0]].runtime.Running? then Some(Unready(s)[0]) else None
  }

  /** What the supervisor notes of a tick that has to keep all three members running. */
  ghost predicate Noted(was: seq<Backoff.Event>, history: seq<Backoff.Event>, s: Status, now: int, grace: int) {
    if AllReady(s) then history == was + Forgotten(4)
    else if RepairTarget(s).Some? then
      if Backoff.MayRepair(was, RepairTarget(s).value, now) then Repaired(was, history, RepairTarget(s).value, now)
      else history == was
    else history == was + Launches(s, Unready(s), |Unready(s)|, now, grace)
  }

  ghost predicate Repaired(was: seq<Backoff.Event>, history: seq<Backoff.Event>, i: Id, now: int) {
    exists end: int, failed: bool :: end >= now && history == was + [Backoff.Tried(i, now, end, failed)]
  }

  /** A running member that is not ready: leave it alone while it may still start or its delay runs, else repair it. */
  method RepairGated(h: Host, sup: Backoff.SupervisorState, i: Id, now: int) returns (ok: bool)
    requires h.Valid() && sup.Valid()
    modifies h`readings, h`reports, h`efforts, h`w, h`up, h`log, sup
    ensures h.Valid() && MemberWork(h, i) && sup.Valid()
    ensures if Backoff.MayRepair(old(sup.history), i, now) then Repaired(old(sup.history), sup.history, i, now)
            else ok && h.w == old(h.w) && h.log == old(h.log) && sup.history == old(sup.history)
    ensures h.log != old(h.log) ==> MajoritySeen(h, i)
    ensures h.reliable && Cyclable(old(h.w), h.stableIP, i) && Backoff.MayRepair(old(sup.history), i, now)
            ==> ok && AllHealthy(h.w)
  {
    hide Evolved, Confined, Quorate, Careful, KeptWhole;
    WatchedNothing(h.w, h.stable);
    WatchingIsWork(h.w, h.w, h.log, i, h.stable);
    var starting := sup.StartupInProgress(i, now);
    if starting {
      return true;
    }
    var allowed := sup.RepairAllowed(i, now);
    if !allowed {
      return true;
    }
    ok := RepairMember(h, i);
    var finished: int := *;
    if finished < now {
      finished := now;
    }
    sup.RecordRepair(i, !ok, finished, true, now);
    assert sup.history == old(sup.history) + [Backoff.Tried(i, now, finished, !ok)];
  }

  /** The one unready member, while both others are ready. */
  method RepairOne(h: Host, s: Status, sup: Backoff.SupervisorState, i: Id, now: int, grace: int) returns (ok: bool)
    requires h.Valid() && sup.Valid()
    modifies h`readings, h`reports, h`efforts, h`w, h`up, h`log, sup
    ensures h.Valid() && MemberWork(h, i) && h.w.files == old(h.w).files && sup.Valid()
    ensures if !OthersReady(s, i) then sup.history == old(sup.history)
            else if !s[i].runtime.Running? then sup.history == old(sup.history) + [Backoff.Launched(i, now, grace)]
            else if Backoff.MayRepair(old(sup.history), i, now) then Repaired(old(sup.history), sup.history, i, now)
            else ok && h.w == old(h.w) && h.log == old(h.log) && sup.history == old(sup.history)
    ensures s[i].runtime.Running? && h.log != old(h.log) ==> MajoritySeen(h, i)
    ensures h.reliable && Ground(old(h.w)) && AddressesFree(old(h.w), h.stableIP)
            && OthersHealthy(old(h.w), i) && OthersReady(s, i) && Supplied(old(h.w), i)
            && s[i].runtime == old(h.w).members[i].envelope && (Up(old(h.w), i) ==> Backoff.MayRepair(old(sup.history), i, now))
            ==> ok && AllHealthy(h.w)
  {
    hide Evolved, Confined, Quorate, Careful, OthersUp, Watched, Lineal, AddressesFree, AllHealthy, OthersHealthy, Backoff.MayRepair, Ground,
         KeptWhole, Backoff.RepairsMatch, Backoff.GraceMatches, Healthy;
    WatchedNothing(h.w, h.stable);
    WatchingIsWork(h.w, h.w, h.log, i, h.stable);
    var others := OtherMembersReady(s, i);
    if !others {
      return false;
    }
    if s[i].runtime.Running? {
      ok := RepairGated(h, sup, i, now);
    } else {
      sup.RecordStartup(i, grace, now);
      ok := StartDown(h, i);
    }
    EvolvedKeepsFiles(old(h.w), h.w, {i}, h.stable);
  }

  method StartDown(h: Host, i: Id) returns (ok: bool)
    requires h.Valid()
    modifies h`readings, h`efforts, h`w, h`up, h`log
    ensures h.Valid() && MemberWork(h, i)
    ensures h.reliable && Ground(old(h.w)) && !Up(old(h.w), i) && OthersHealthy(old(h.w), i) && AddressesFree(old(h.w), h.stableIP)
            && Supplied(old(h.w), i)
            ==> ok && AllHealthy(h.w)
  {
    hide Evolved, Confined, Quorate, Careful, AddressesFree, AllHealthy, OthersHealthy;
    if Ground(h.w) && !Up(h.w, i) && Supplied(h.w, i) {
      StartedHealthy(h.w, h.stableIP, i);
    }
    ok := StartMember(h, i);
  }

  /** Repairs of a cluster that is to run with all three members. */
  method Repair(h: Host, s: Status, sup: Backoff.SupervisorState, now: int, grace: int, ghost resetting: bool) returns (ok: bool)
    requires h.Valid() && sup.Valid() && HonestStatus(s, h.w, resetting, h.stable)
    modifies h`readings, h`reports, h`efforts, h`w, h`up, h`log, h`call, sup
    ensures h.Valid() && Preserved(h) && CreationFiles(old(h.w).files, h.w.files)
    ensures sup.Valid() && Noted(old(sup.history), sup.history, s, now, grace)
    ensures AllReady(s) ==> ok && h.w == old(h.w) && h.log == old(h.log)
    ensures RepairTarget(s).Some? && !Backoff.MayRepair(old(sup.history), RepairTarget(s).value, now)
            ==> ok && h.w == old(h.w) && h.log == old(h.log)
    ensures RepairTarget(s).Some? && h.log != old(h.log)
            ==> MajoritySeen(h, RepairTarget(s).value) && Only(old(h.log), h.log, RepairTarget(s).value)
    ensures h.reliable && ExactStatus(s, old(h.w)) && Ground(old(h.w)) && AddressesFree(old(h.w), h.stableIP)
            && OneUnhealthy(old(h.w)) && Repairable(old(h.w), old(sup.history), now)
            ==> ok && AllHealthy(h.w)
    ensures h.reliable && ExactStatus(s, old(h.w)) && Creatable(old(h.w)) && Reviving(old(h.w), h.stableIP, 1) && SeveralUnhealthy(old(h.w))
            ==> (ok <==> AllHealthy(h.w)) && (ok <==> !Blocked(old(h.w)))
  {
    StillUntouched(h.w, h.log, h.stable);
    AllReadyIsAllUp(s, h.w, h.stableIP);
    NotedAs(s);
    hide Noted, RepairTarget, AllReady, Quorate, Careful, Reviving, Blocked, SeveralUnhealthy, AllHealthy, AddressesFree, HonestStatus, KeptWhole,
         Backoff.RepairsMatch, Backoff.GraceMatches, Backoff.MayRepair, MajoritySeen, Only, Launches, Repaired, Forgotten, Evolved, Confined;
    var all := AllMembersReady(s);
    if all {
      ForgetTroubles(sup, now);
      return true;
    }
    var unready := FindUnready(s);
    UnreadyInReliable(s, h.w, h.stableIP, unready);
    hide ExactStatus, OneUnhealthy, Unready;
    if |unready| != 1 {
      ok := RepairSeveral(h, s, sup, unready, now, grace);
      return;
    }
    ok := RepairOne(h, s, sup, unready[0], now, grace);
    WorkIsOnly(old(h.log), h.log, old(h.w), unready[0], h.stable);
  }

  /** What each of the three branches of a repair has to leave in the history. */
  lemma NotedAs(s: Status)
    ensures AllReady(s) ==> RepairTarget(s).None?
                            && forall was, now, grace :: Noted(was, was + Forgotten(4), s, now, grace)
    ensures !AllReady(s) && |Unready(s)| != 1
            ==> RepairTarget(s).None?
                && forall was, now, grace :: Noted(was, was + Launches(s, Unready(s), |Unready(s)|, now, grace), s, now, grace)
    ensures |Unready(s)| == 1
            ==> && RepairTarget(s) == (if s[Unready(s)[0]].runtime.Running? then Some(Unready(s)[0]) else None)
                && (forall was, history, now, grace :: NotedOne(was, history, s, Unready(s)[0], now, grace) ==> Noted(was, history, s, now, grace))
  {
    if |Unready(s)| == 1 {
      var i := Unready(s)[0];
      assert i in Unready(s);
      forall was, history, now, grace | NotedOne(was, history, s, i, now, grace) ensures Noted(was, history, s, now, grace) {
        assert Launches(s, Unready(s), 1, now, grace) == if s[i].runtime.Running? then [] else [Backoff.Launched(i, now, grace)];
      }
    }
  }

  ghost predicate NotedOne(was: seq<Backoff.Event>, history: seq<Backoff.Event>, s: Status, i: Id, now: int, grace: int) {
    if !s[i].runtime.Running? then history == was + [Backoff.Launched(i, now, grace)]
    else if Backoff.MayRepair(was, i, now) then Repaired(was, history, i, now)
    else history == was
  }

  /** Several members are not ready: note the starts, and start the cluster. */
  method RepairSeveral(h: Host, s: Status, sup: Backoff.SupervisorState, unready: seq<Id>, now: int, grace: int) returns (ok: bool)
    requires h.Valid() && sup.Valid()
    modifies h`readings, h`reports, h`efforts, h`w, h`up, h`log, h`call, sup
    ensures h.Valid() && Preserved(h) && CreationFiles(old(h.w).files, h.w.files)
    ensures sup.Valid() && sup.history == old(sup.history) + Launches(s, unready, |unready|, now, grace)
    ensures h.reliable && Creatable(old(h.w)) && Reviving(old(h.w), h.stableIP, 1)
            ==> (ok <==> AllHealthy(h.w)) && (ok <==> !Blocked(old(h.w)))
  {
    hide Launches, Quorate, Careful, Reviving, Blocked, AllHealthy, AddressesFree, KeptWhole, Backoff.RepairsMatch, Backoff.GraceMatches;
    NoteStarts(sup, s, unready, grace, now);
    ok := StartLocked(h);
  }

  /** Exactly one member is not healthy, and its volume holds a database. */
  predicate OneUnhealthy(w: World) {
    && !AllHealthy(w)
    && ((OthersHealthy(w, 1) && Supplied(w, 1)) || (OthersHealthy(w, 2) && Supplied(w, 2))
        || (OthersHealthy(w, 3) && Supplied(w, 3)))
  }

  /** At least two members are not ready. */
  predicate SeveralUnhealthy(w: World) {
    !OthersHealthy(w, 1) && !OthersHealthy(w, 2) && !OthersHealthy(w, 3)
  }

  /** No startup grace and no delay holds back the repair of a running member. */
  ghost predicate Repairable(w: World, history: seq<Backoff.Event>, now: int) {
    forall i | 1 <= i <= 3 :: Up(w, i) && !Healthy(w.members[i]) ==> Backoff.MayRepair(history, i, now)
  }

  lemma AllReadyIsAllUp(s: Status, w: World, stableIP: seq<nat>)
    requires |stableIP| == 4
    ensures AllReady(s) && ExactStatus(s, w) ==> AllHealthy(w) && !SeveralUnhealthy(w) && !Blocked(w)
  {
  }

  /** On a fault-free host the unready members are the unhealthy ones. */
  lemma UnreadyInReliable(s: Status, w: World, stableIP: seq<nat>, unready: seq<Id>)
    requires |stableIP| == 4
    requires unready == Unready(s)
    ensures ExactStatus(s, w) && OneUnhealthy(w) ==> |unready| == 1
    ensures ExactStatus(s, w) && SeveralUnhealthy(w) ==> |unready| != 1
    ensures |unready| == 1 ==> !Ready(s[unready[0]]) && OthersReady(s, unready[0])
    ensures |unready| == 1 && ExactStatus(s, w) ==> OthersHealthy(w, unready[0]) && !Healthy(w.members[unready[0]])
    ensures |unready| == 1 && ExactStatus(s, w) && OneUnhealthy(w) ==> Supplied(w, unready[0])
    ensures |unready| == 1 && ExactStatus(s, w) ==> s[unready[0]].runtime == w.members[unready[0]].envelope
  {
    if |unready| == 1 {
      assert unready[0] in unready;
    }
  }

  /** The gates before a tick touches anything: configuration, journal, and readable intent. */
  predicate Gate(f: Files) {
    f.config && AllowsSupervision(f.journal) && ReadableIntent(f)
  }

  predicate TickFiles(f: Files, g: Files) {
    && g.journal == f.journal && g.staging == f.staging
    && (g.desired == f.desired || g.desired == Some(DEFAULT_INTENT) || g.desired == Some(IntentOf(f).(running := false)))
  }

  /** The cluster is to run without one member. */
  predicate MeantDown(w: World) {
    Gate(w.files) && IntentOf(w.files).running && IntentOf(w.files).stopped != []
  }

  function DownId(w: World): (r: Id)
    requires MeantDown(w)
  {
    IntentOf(w.files).stopped[0]
  }

  /** A host on which a tick has nothing to do. */
  predicate Quiescent(w: World) {
    var d := IntentOf(w.files);
    if !d.running then AllDown(w)
    else if d.stopped == [] then AllHealthy(w)
    else 1 <= d.stopped[0] <= 3 && !Up(w, d.stopped[0]) && OthersHealthy(w, d.stopped[0])
  }

  /** The first reading that was completed since then. */
  function FirstSince(readings: seq<Status>, since: nat): (r: Option<Status>) {
    if |readings| > since then Some(readings[since]) else None
  }

  /** What a tick made of its reading when all three members are to run. */
  ghost predicate Acted(h: Host, was: seq<Entry>, before: seq<Backoff.Event>, history: seq<Backoff.Event>, s: Status,
                        now: int, grace: int, ok: bool)
    reads h
  {
    && Noted(before, history, s, now, grace)
    && (AllReady(s) ==> ok && h.log == was)
    && (RepairTarget(s).Some? ==>
          && (!Backoff.MayRepair(before, RepairTarget(s).value, now) ==> ok && h.log == was)
          && (h.log != was ==> MajoritySeen(h, RepairTarget(s).value) && Only(was, h.log, RepairTarget(s).value)))
  }

  /** What a tick made of its reading when member i is to stay down. */
  ghost predicate Enforced(h: Host, was: seq<Entry>, s: Status, i: Id, ok: bool)
    reads h
  {
    && (OthersReady(s, i) && !s[i].runtime.Running? ==> ok && h.log == was)
    && (h.log != was ==> Entitled(h, s, i))
    && (!OthersReady(s, i) ==> Spared(was, h.log, i))
  }

  method TickRunning(h: Host, d: Desired, sup: Backoff.SupervisorState, now: int, grace: int) returns (ok: bool, ghost seen: Option<Status>)
    requires h.Valid() && sup.Valid() && d.running && ValidDesired(d) && h.w.files.config && h.up
    modifies h`readings, h`reports, h`efforts, h`w, h`up, h`log, h`call, sup
    ensures h.Valid() && sup.Valid() && Preserved(h)
    ensures seen == FirstSince(h.readings, |old(h.readings)|)
    ensures seen.None? ==> !ok && h.log == old(h.log) && sup.history == old(sup.history)
    ensures seen.Some? && d.stopped == [] ==> Acted(h, old(h.log), old(sup.history), sup.history, seen.value, now, grace, ok)
    ensures seen.Some? && d.stopped != [] ==> sup.history == old(sup.history) && Enforced(h, old(h.log), seen.value, d.stopped[0], ok)
    ensures h.w.files == old(h.w).files || (d.stopped == [] && CreationFiles(old(h.w).files, h.w.files))
    ensures forall i | i in d.stopped :: NoRunOf(old(h.log), h.log, i)
    ensures h.reliable && (if d.stopped == [] then AllHealthy(old(h.w)) else !Up(old(h.w), d.stopped[0]) && OthersHealthy(old(h.w), d.stopped[0]))
            ==> ok && h.w == old(h.w) && h.log == old(h.log)
    ensures h.reliable && d.stopped != [] && Ground(old(h.w)) && OthersHealthy(old(h.w), d.stopped[0])
            ==> ok && !Up(h.w, d.stopped[0]) && OthersHealthy(h.w, d.stopped[0])
    ensures h.reliable && d.stopped != [] && Ground(old(h.w)) && AddressesFree(old(h.w), h.stableIP) && Resumes(old(h.w), d.stopped[0])
            ==> ok && OthersHealthy(h.w, d.stopped[0])
    ensures h.reliable && d.stopped == [] && Ground(old(h.w)) && AddressesFree(old(h.w), h.stableIP)
            && OneUnhealthy(old(h.w)) && Repairable(old(h.w), old(sup.history), now)
            ==> ok && AllHealthy(h.w)
    ensures h.reliable && d.stopped == [] && Creatable(old(h.w)) && Reviving(old(h.w), h.stableIP, 1) && SeveralUnhealthy(old(h.w))
            ==> (ok <==> AllHealthy(h.w)) && (ok <==> !Blocked(old(h.w)))
  {
    seen := None;
    ghost var resetting := h.w.helpers[RESET].Running?;
    var s;
    ok, s := ReadStatus(h);
    WatchingIsWork(old(h.w), h.w, h.log, 1, h.stable);
    EvolvedKeepsFiles(old(h.w), h.w, {}, h.stable);
    forall i | i in d.stopped {
      NothingRan(h.log, i);
    }
    if !ok {
      return;
    }

    ghost var w1, l1 := h.w, h.log;
    seen := Some(s);
    ok := ActOn(h, d, s, sup, now, grace, resetting);
    StitchCareful(old(h.w), old(h.log), w1, l1, h.w, h.log, h.stable);
  }

  /** Act on the reading: enforce the stop of a member that is to stay down, or keep all three running. */
  method ActOn(h: Host, d: Desired, s: Status, sup: Backoff.SupervisorState, now: int, grace: int, ghost resetting: bool) returns (ok: bool)
    requires h.Valid() && sup.Valid() && ValidDesired(d) && HonestStatus(s, h.w, resetting, h.stable) && (h.reliable ==> ExactStatus(s, h.w))
    modifies h`readings, h`reports, h`efforts, h`w, h`up, h`log, h`call, sup
    ensures h.Valid() && sup.Valid() && Preserved(h) && old(h.readings) <= h.readings
    ensures d.stopped == [] ==> Acted(h, old(h.log), old(sup.history), sup.history, s, now, grace, ok)
    ensures d.stopped != [] ==> sup.history == old(sup.history) && Enforced(h, old(h.log), s, d.stopped[0], ok)
    ensures h.w.files == old(h.w).files || (d.stopped == [] && CreationFiles(old(h.w).files, h.w.files))
    ensures forall i | i in d.stopped :: NoRunOf(old(h.log), h.log, i)
    ensures h.reliable && (if d.stopped == [] then AllHealthy(old(h.w)) else !Up(old(h.w), d.stopped[0]) && OthersHealthy(old(h.w), d.stopped[0]))
            ==> ok && h.w == old(h.w) && h.log == old(h.log)
    ensures h.reliable && d.stopped != [] && Ground(old(h.w)) && OthersHealthy(old(h.w), d.stopped[0])
            ==> ok && !Up(h.w, d.stopped[0]) && OthersHealthy(h.w, d.stopped[0])
    ensures h.reliable && d.stopped != [] && Ground(old(h.w)) && AddressesFree(old(h.w), h.stableIP) && Resumes(old(h.w), d.stopped[0])
            ==> ok && OthersHealthy(h.w, d.stopped[0])
    ensures h.reliable && d.stopped == [] && Ground(old(h.w)) && AddressesFree(old(h.w), h.stableIP)
            && OneUnhealthy(old(h.w)) && Repairable(old(h.w), old(sup.history), now)
            ==> ok && AllHealthy(h.w)
    ensures h.reliable && d.stopped == [] && Creatable(old(h.w)) && Reviving(old(h.w), h.stableIP, 1) && SeveralUnhealthy(old(h.w))
            ==> (ok <==> AllHealthy(h.w)) && (ok <==> !Blocked(old(h.w)))
  {
    hide Evolved, Confined, Quorate, Careful, OthersUp, AddressesFree, AllHealthy, OthersHealthy, Reviving, Blocked, SeveralUnhealthy, OneUnhealthy,
         Repairable, Watched, HonestStatus, ExactStatus, AllReady, OthersReady, Resumes, Noted, RepairTarget, KeptWhole, Backoff.MayRepair, Entitled,
         Spared, Only, MajoritySeen;
    ExactMeans(s, h.w);
    if |d.stopped| == 1 {
      ok := EnforceIntent(h, s, d.stopped[0], resetting);
    } else {
      ok := Repair(h, s, sup, now, grace, resetting);
    }
  }

  /**
  One supervisor tick. Behind a closed journal it touches nothing. A cluster that is to stop is
  only ever stopped; a member that is to stay down is never started; and as long as no server
  fails by itself, a running majority is kept.
   */
  method Tick(h: Host, sup: Backoff.SupervisorState, now: int, grace: int) returns (ok: bool, ghost seen: Option<Status>)
    requires h.Valid() && sup.Valid()
    modifies h`readings, h`reports, h`efforts, h`w, h`up, h`log, h`call, sup
    ensures h.Valid() && sup.Valid()
    ensures if Gate(old(h.w).files) && IntentOf(old(h.w).files).running then seen == FirstSince(h.readings, |old(h.readings)|) else seen.None?
    ensures old(h.readings) <= h.readings && old(h.log) <= h.log && (seen.None? ==> sup.history == old(sup.history))
    ensures Gate(old(h.w).files) && IntentOf(old(h.w).files).running && seen.None? ==> !ok && h.log == old(h.log)
    ensures seen.Some? && IntentOf(old(h.w).files).stopped == []
            ==> Acted(h, old(h.log), old(sup.history), sup.history, seen.value, now, grace, ok)
    ensures seen.Some? && IntentOf(old(h.w).files).stopped != []
            ==> sup.history == old(sup.history) && Enforced(h, old(h.log), seen.value, IntentOf(old(h.w).files).stopped[0], ok)
    ensures !Gate(old(h.w).files) ==> !ok && h.w == old(h.w) && h.log == old(h.log)
    ensures TickFiles(old(h.w).files, h.w.files)
    ensures VolumesComplete(old(h.w)) ==> VolumesComplete(h.w)
    ensures Gate(old(h.w).files) && !IntentOf(old(h.w).files).running ==> OnlyStops(old(h.log), h.log)
    ensures Gate(old(h.w).files) && !IntentOf(old(h.w).files).running && AllDown(old(h.w)) ==> h.log == old(h.log)
    ensures Gate(old(h.w).files) && !IntentOf(old(h.w).files).running && h.reliable ==> ok && AllDown(h.w)
    ensures IntentOf(old(h.w).files).running ==> Kept(h) && IntentOf(h.w.files).running
    ensures Gate(old(h.w).files) && !IntentOf(old(h.w).files).running ==> Gate(h.w.files) && !IntentOf(h.w.files).running
    ensures IntentOf(old(h.w).files).running && IntentOf(old(h.w).files).stopped != [] ==> h.w.files == old(h.w).files
    ensures Gate(old(h.w).files) && IntentOf(old(h.w).files).running
            ==> forall i | i in IntentOf(old(h.w).files).stopped :: NoRunOf(old(h.log), h.log, i)
    ensures h.reliable && Gate(old(h.w).files) && Quiescent(old(h.w)) ==> ok && h.log == old(h.log) && h.w.members == old(h.w).members
    ensures h.reliable && MeantDown(old(h.w)) && Ground(old(h.w)) && OthersHealthy(old(h.w), DownId(old(h.w)))
            ==> ok && !Up(h.w, DownId(old(h.w))) && OthersHealthy(h.w, DownId(old(h.w)))
    ensures h.reliable && MeantDown(old(h.w)) && Ground(old(h.w)) && AddressesFree(old(h.w), h.stableIP) && Resumes(old(h.w), DownId(old(h.w)))
            ==> ok && OthersHealthy(h.w, DownId(old(h.w)))
    ensures h.reliable && Gate(old(h.w).files) && IntentOf(old(h.w).files) == DEFAULT_INTENT
            && Ground(old(h.w)) && AddressesFree(old(h.w), h.stableIP)
            && OneUnhealthy(old(h.w)) && Repairable(old(h.w), old(sup.history), now)
            ==> ok && AllHealthy(h.w)
    ensures h.reliable && Gate(old(h.w).files) && IntentOf(old(h.w).files) == DEFAULT_INTENT && old(h.w).files.token.Some?
            && Reviving(old(h.w), h.stableIP, 1) && SeveralUnhealthy(old(h.w))
            ==> (ok <==> AllHealthy(h.w)) && (ok <==> !Blocked(old(h.w)))
  {
    hide Evolved, Confined, Quorate, Careful, OthersUp, AddressesFree, AllHealthy, OthersHealthy, Reviving, Blocked, SeveralUnhealthy, OneUnhealthy,
         Repairable, Resumes, Noted, RepairTarget, KeptWhole, Acted, Enforced;
    seen := None;
    StillUntouched(h.w, h.log, h.stable);
    ok := h.w.files.config && AllowsSupervision(h.w.files.journal) && h.up;
    if !ok {
      return;
    }
    var d;
    ok, d := LoadDesired(h);
    if !ok {
      return;
    }
    if !d.running {
      ok := StopLocked(h);
    } else {
      ok, seen := TickRunning(h, d, sup, now, grace);
    }
  }
}
