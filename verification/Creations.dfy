/**
Creating or reconciling the whole cluster: the path behind CreateHA and StartHA, which the
supervisor also takes when more than one member is down.
 */
module Creations {
  import opened Options
  import opened Journals
  import opened Worlds
  import opened Hosts
  import opened Intents
  import opened Envelopes
  import opened Statuses
  import opened Revivals
  import opened Members

  /** The majority stays as long as no server fails by itself, and an existing cluster keeps all its data volumes. */
  twostate predicate Preserved(h: Host)
    reads h
  {
    Kept(h) && (VolumesComplete(old(h.w)) ==> VolumesComplete(h.w))
  }

  // ---- files and infrastructure -----------------------------------------------------------------------

  predicate FilesOnly(w: World, after: World) {
    && after == w.(files := after.files)
    && after.files.journal == w.files.journal && after.files.staging == w.files.staging
  }

  lemma FilesKeep(w: World, after: World, log: seq<Entry>)
    requires FilesOnly(w, after)
    ensures Quorate(w) ==> Quorate(after) && Careful(log, log)
  {
  }

  lemma UntouchedKeeps(w: World, log: seq<Entry>, after: World, now: seq<Entry>, stable: bool)
    requires Untouched(w, after, stable) && Confined(log, now, w, {}, stable)
    ensures log <= now && (stable && Quorate(w) ==> Quorate(after) && Careful(log, now))
  {
    if stable && Quorate(w) {
      assert EnvelopeDrift(w.members[1].envelope, after.members[1].envelope, stable);
      assert EnvelopeDrift(w.members[2].envelope, after.members[2].envelope, stable);
      assert EnvelopeDrift(w.members[3].envelope, after.members[3].envelope, stable);
      NothingIsConfined(log, w, {}, {}, stable);
      HelpKeeps(w, log, w, now, {}, stable);
    }
  }

  lemma UntouchedTrans(a: World, b: World, c: World, stable: bool)
    requires Untouched(a, b, stable) && Untouched(b, c, stable)
    ensures Untouched(a, c, stable)
  {
    forall j | 1 <= j <= 3 ensures EnvelopeDrift(a.members[j].envelope, c.members[j].envelope, stable) {
      assert EnvelopeDrift(a.members[j].envelope, b.members[j].envelope, stable);
      assert EnvelopeDrift(b.members[j].envelope, c.members[j].envelope, stable);
    }
    forall k | 0 <= k <= 3 ensures HelperUndisturbed(a, c, k) {
      assert HelperUndisturbed(a, b, k) && HelperUndisturbed(b, c, k);
    }
  }

  /** Network and volume work: no server, helper or file is operated on, and the majority stays. */
  twostate predicate GroundWork(h: Host)
    reads h
  {
    Kept(h) && Untouched(old(h.w), h.w, h.stable)
  }

  method AddNetwork(h: Host) returns (ok: bool)
    requires h.Valid()
    modifies h`w, h`up, h`log
    ensures h.Valid() && GroundWork(h)
    ensures VolumesComplete(old(h.w)) ==> VolumesComplete(h.w)
    ensures h.reliable && !old(h.w).network ==> ok && h.w == old(h.w).(network := true)
  {
    ok := h.MakeNetwork();
    NetworkIsUntouched(old(h.w), h.w, h.stable);
    UntouchedKeeps(old(h.w), old(h.log), h.w, h.log, h.stable);
  }

  lemma NetworkIsUntouched(w: World, after: World, stable: bool)
    requires Evolved(w, after.(network := w.network), {}, {}, stable)
    ensures Untouched(w, after, stable)
  {
    var same := after.(network := w.network);
    assert Undisturbed(w, same, 1, stable) && Undisturbed(w, same, 2, stable) && Undisturbed(w, same, 3, stable);
    assert HelperUndisturbed(w, same, 0) && HelperUndisturbed(w, same, 1) && HelperUndisturbed(w, same, 2) && HelperUndisturbed(w, same, 3);
  }

  method AddVolume(h: Host, i: Id) returns (ok: bool)
    requires h.Valid()
    modifies h`w, h`up, h`log
    ensures h.Valid() && GroundWork(h)
    ensures h.reliable && old(h.w).members[i].data.Absent? ==> ok && h.w == SetData(old(h.w), i, Blank)
  {
    ok := h.MakeVolume(i);
    UntouchedKeeps(old(h.w), old(h.log), h.w, h.log, h.stable);
  }

  /** Distinct volumes that exist and that no envelope mounts. */
  predicate Undoable(w: World, created: seq<Id>) {
    && (forall j, k | 0 <= j < k < |created| :: created[j] != created[k])
    && (forall k | 0 <= k < |created| :: w.members[created[k]].envelope.Missing? && !w.members[created[k]].data.Absent?)
  }

  /** The volumes created[k..] are gone again, and nothing else about the members has changed. */
  predicate Undone(w: World, after: World, created: seq<Id>, k: nat)
    requires k <= |created|
  {
    forall i: Id | 1 <= i <= 3 :: after.members[i] == (if i in created[k..] then w.members[i].(data := Absent) else w.members[i])
  }

  /** Undo this call's own creations, newest first. */
  method RollbackInfrastructure(h: Host, created: seq<Id>, networkCreated: bool)
    requires h.Valid() && !h.pledged
    modifies h`efforts, h`w, h`up, h`log
    ensures h.Valid() && GroundWork(h)
    ensures h.efforts == old(h.efforts) + [Undoing]
    ensures h.reliable && Undoable(old(h.w), created) && (networkCreated ==> old(h.w).network)
            ==> Undone(old(h.w), h.w, created, 0) && h.w.network == (old(h.w).network && !networkCreated)
  {
    hide Untouched, Confined, Quorate, Careful, Evolved;
    h.efforts := h.efforts + [Undoing];
    StillUntouched(h.w, h.log, h.stable);
    var k := |created|;
    while k > 0
      invariant 0 <= k <= |created| && h.efforts == old(h.efforts) + [Undoing]
      invariant h.Valid() && GroundWork(h)
      invariant h.reliable && Undoable(old(h.w), created) ==> Undone(old(h.w), h.w, created, k) && h.w.network == old(h.w).network
    {
      k := k - 1;
      ghost var w1, l1 := h.w, h.log;
      var dropped := h.DropVolume(created[k]);
      UntouchedKeeps(w1, l1, h.w, h.log, h.stable);
      UntouchedTrans(old(h.w), w1, h.w, h.stable);
      StitchCareful(old(h.w), old(h.log), w1, l1, h.w, h.log, h.stable);
    }
    if networkCreated {
      ghost var w2, l2 := h.w, h.log;
      var dropped := h.DropNetwork();
      UntouchedKeeps(w2, l2, h.w, h.log, h.stable);
      UntouchedTrans(old(h.w), w2, h.w, h.stable);
      StitchCareful(old(h.w), old(h.log), w2, l2, h.w, h.log, h.stable);
    }
  }

  lemma StillUntouched(w: World, log: seq<Entry>, stable: bool)
    ensures Untouched(w, w, stable) && Careful(log, log)
  {
  }

  method CreateInfrastructure(h: Host, pf: Preflight) returns (ok: bool)
    requires h.Valid() && Shaped(pf) && (h.pledged ==> VolumeCount(pf) == 3)
    modifies h`efforts, h`w, h`up, h`log
    ensures h.Valid() && GroundWork(h)
    ensures pf.network && VolumeCount(pf) == 3 ==> ok && h.w == old(h.w) && h.log == old(h.log)
    ensures VolumeCount(pf) == 3 && VolumesComplete(old(h.w)) ==> VolumesComplete(h.w)
    ensures h.reliable && SeenExactly(pf, old(h.w)) && NoVolumes(old(h.w)) ==> ok && h.w == Built(old(h.w))
  {
    hide Untouched, Confined, Quorate, Careful, Evolved, SeenExactly;
    SeenNothing(pf, h.w);
    StillUntouched(h.w, h.log, h.stable);
    ok := true;
    if !pf.network {
      ok := AddNetwork(h);
      if !ok {
        return;
      }
    }

    ghost var w1, l1 := h.w, h.log;
    ok := CreateVolumes(h, pf);
    UntouchedTrans(old(h.w), w1, h.w, h.stable);
    StitchCareful(old(h.w), old(h.log), w1, l1, h.w, h.log, h.stable);
  }

  /** The network and three empty volumes. */
  function Built(w: World): (r: World) {
    Blanked(w.(network := true), 3)
  }

  function Blanked(w: World, n: int): (r: World) {
    w.(members := [w.members[0],
                   if n >= 1 then w.members[1].(data := Blank) else w.members[1],
                   if n >= 2 then w.members[2].(data := Blank) else w.members[2],
                   if n >= 3 then w.members[3].(data := Blank) else w.members[3]])
  }

  lemma SeenNothing(pf: Preflight, w: World)
    ensures SeenExactly(pf, w) && NoVolumes(w) ==> pf.network == w.network && !pf.volumes[1] && !pf.volumes[2] && !pf.volumes[3]
    ensures Blanked(w, 0) == w
    ensures w.network ==> w.(network := true) == w
  {
    assert w.members == [w.members[0], w.members[1], w.members[2], w.members[3]];
  }

  lemma BlankedMore(w: World, i: Id)
    ensures SetData(Blanked(w, i - 1), i, Blank) == Blanked(w, i)
    ensures Blanked(w, i - 1).members[i] == w.members[i]
  {
  }

  method CreateVolumes(h: Host, pf: Preflight) returns (ok: bool)
    requires h.Valid() && Shaped(pf) && (h.pledged ==> VolumeCount(pf) == 3)
    modifies h`efforts, h`w, h`up, h`log
    ensures h.Valid() && GroundWork(h)
    ensures h.efforts == old(h.efforts) + (if ok then [] else [Undoing])
    ensures VolumeCount(pf) == 3 ==> ok && h.w == old(h.w) && h.log == old(h.log)
    ensures h.reliable && !pf.volumes[1] && !pf.volumes[2] && !pf.volumes[3] && NoVolumes(old(h.w)) ==> ok && h.w == Blanked(old(h.w), 3)
  {
    hide Untouched, Confined, Quorate, Careful, Evolved, Blanked;
    StillUntouched(h.w, h.log, h.stable);
    SeenNothing(pf, h.w);
    ok := true;
    var created: seq<Id> := [];
    for i := 1 to 4
      invariant h.Valid() && GroundWork(h)
      invariant h.efforts == old(h.efforts)
      invariant VolumeCount(pf) == 3 ==> h.w == old(h.w) && h.log == old(h.log)
      invariant h.reliable && !pf.volumes[1] && !pf.volumes[2] && !pf.volumes[3] && NoVolumes(old(h.w)) ==> h.w == Blanked(old(h.w), i - 1)
    {
      BlankedMore(old(h.w), i);
      if !pf.volumes[i] {
        ghost var w1, l1 := h.w, h.log;
        ok := AddVolume(h, i);
        UntouchedTrans(old(h.w), w1, h.w, h.stable);
        StitchCareful(old(h.w), old(h.log), w1, l1, h.w, h.log, h.stable);
        if !ok {
          ghost var w2, l2 := h.w, h.log;
          RollbackInfrastructure(h, created, !pf.network);
          UntouchedTrans(old(h.w), w2, h.w, h.stable);
          StitchCareful(old(h.w), old(h.log), w2, l2, h.w, h.log, h.stable);
          return;
        }
        created := created + [i];
      }
    }
    ok := true;
  }

  // ---- reconciling the three members ---------------------------------------------------------------------

  /** A fault-free bootstrap: members below `i` are ready on the cluster the seed founds, the others are still to come. */
  ghost predicate Booting(w: World, stableIP: seq<nat>, i: int, c: nat)
    requires |stableIP| == 4
  {
    && w.network && VolumesComplete(w) && AddressesFree(w, stableIP)
    && (i <= 1 ==> c == w.nextCluster)
    && (forall j | 1 <= j <= 3 && j < i :: Healthy(w.members[j]) && w.members[j].data == Lineage(c))
    && (forall j | 1 <= j <= 3 && j >= i :: w.members[j] == Member(Missing, Blank))
  }

  lemma BootingStep(w: World, stableIP: seq<nat>, i: Id, c: nat)
    requires |stableIP| == 4 && forall j, k | 1 <= j < k <= 3 :: stableIP[j] != stableIP[k]
    requires Booting(w, stableIP, i, c)
    ensures w.network && !w.members[i].data.Absent? && AddressesFree(w, stableIP) && w.members[i].envelope.Missing?
    ensures Booting(StartedWorld(w, stableIP, i), stableIP, i + 1, c)
    ensures Healthy(StartedWorld(w, stableIP, i).members[i])
  {
    assert i > 1 ==> Healthy(w.members[SEED]);
    var launched := LaunchedWorld(w, stableIP, i);
    var after := StartedWorld(w, stableIP, i);
    assert forall j | 1 <= j <= 3 && j != i :: launched.members[j] == w.members[j] && after.members[j] == w.members[j];
  }

  lemma BootedIsOnCluster(w: World, stableIP: seq<nat>, c: nat)
    requires |stableIP| == 4
    ensures Booting(w, stableIP, 4, c) ==> OnCluster(w, c)
  {
  }

  predicate NoRecords(pf: Preflight)
    requires Shaped(pf)
  {
    pf.records[1].Missing? && pf.records[2].Missing? && pf.records[3].Missing?
  }

  /** Records taken earlier that may since only have gone stale by a server stopping on its own. */
  predicate Current(pf: Preflight, w: World, from: int, stable: bool)
    requires Shaped(pf)
  {
    stable ==> && (from <= 1 && !pf.records[1].Running? ==> !Up(w, 1))
               && (from <= 2 && !pf.records[2].Running? ==> !Up(w, 2))
               && (from <= 3 && !pf.records[3].Running? ==> !Up(w, 3))
  }

  lemma StillCurrent(pf: Preflight, w: World, after: World, i: int, stable: bool)
    requires Shaped(pf) && 1 <= i <= 3 && Current(pf, w, i, stable) && Evolved(w, after, {i}, {}, stable)
    ensures Current(pf, after, i + 1, stable)
  {
    assert i == 1 || Undisturbed(w, after, 1, stable);
    assert i == 2 || Undisturbed(w, after, 2, stable);
    assert i == 3 || Undisturbed(w, after, 3, stable);
  }

  lemma StillCurrentAfterWatching(pf: Preflight, w: World, after: World, i: int, stable: bool)
    requires Shaped(pf) && Current(pf, w, i, stable) && Evolved(w, after, {}, {}, stable)
    ensures Current(pf, after, i, stable)
  {
    assert Undisturbed(w, after, 1, stable) && Undisturbed(w, after, 2, stable) && Undisturbed(w, after, 3, stable);
  }

  /** The member whose running legacy envelope is met first, if there is one. */
  function FirstLegacy(w: World): (r: int) {
    if Up(w, 1) && w.members[1].envelope.legacy then 1
    else if Up(w, 2) && w.members[2].envelope.legacy then 2
    else if Up(w, 3) && w.members[3].envelope.legacy then 3
    else 4
  }

  /** A legacy envelope is migrated only while all three members are ready; otherwise it blocks the reconcile. */
  predicate Blocked(w: World) {
    !AllHealthy(w) && FirstLegacy(w) <= 3
  }

  function Blocker(w: World): (r: int) {
    if Blocked(w) then FirstLegacy(w) else 4
  }

  lemma RevivingStep(w: World, stableIP: seq<nat>, i: Id)
    requires |stableIP| == 4 && forall j, k | 1 <= j < k <= 3 :: stableIP[j] != stableIP[k]
    requires Reviving(w, stableIP, i) && (Up(w, i) && w.members[i].envelope.legacy ==> AllHealthy(w))
    ensures var after := Reconciled(w, stableIP, i);
            && Reviving(after, stableIP, i + 1)
            && (forall j | 1 <= j <= 3 && j != i :: after.members[j] == w.members[j])
            && after.files == w.files
            && (AllHealthy(w) <==> AllHealthy(after))
  {
    if !Up(w, i) {
      RevivingStart(w, stableIP, i);
    } else if w.members[i].envelope.legacy {
      MigratingStep(w, stableIP, i);
    }
  }

  lemma MigratingStep(w: World, stableIP: seq<nat>, i: Id)
    requires |stableIP| == 4 && forall j, k | 1 <= j < k <= 3 :: stableIP[j] != stableIP[k]
    requires Reviving(w, stableIP, i) && AllHealthy(w)
    ensures var after := CycledWorld(w, stableIP, i);
            && Reviving(after, stableIP, i + 1) && AllHealthy(after) && after.files == w.files
            && (forall j | 1 <= j <= 3 && j != i :: after.members[j] == w.members[j])
  {
    var mid := SetEnvelope(w, i, Stopped);
    StoppedStaysFree(w, stableIP, i);
    StartedHealthy(mid, stableIP, i);
    var launched := LaunchedWorld(mid, stableIP, i);
    var after := StartedWorld(mid, stableIP, i);
    assert forall j | 1 <= j <= 3 && j != i :: launched.members[j] == w.members[j] && after.members[j] == RestedMember(w.members[j]);
  }

  /** The reconcile is not blocked at member i: its envelope is current, or all members are ready. */
  lemma Unblocked(w: World, stableIP: seq<nat>, was: World, i: Id)
    requires |stableIP| == 4 && Reviving(w, stableIP, i) && i < Blocker(was)
    requires forall j | i <= j <= 3 :: w.members[j] == was.members[j]
    requires AllHealthy(was) <==> AllHealthy(w)
    ensures Up(w, i) && w.members[i].envelope.legacy ==> AllHealthy(w)
  {
  }

  lemma ExactRecords(pf: Preflight, w: World)
    ensures SeenExactly(pf, w) ==> Shaped(pf) && forall i | 1 <= i <= 3 :: pf.records[i] == w.members[i].envelope
  {
  }

  /**
  Reconcile one after the other; a fresh cluster also waits for each member before the next.
  From members that are ready, starting or down, a fault-free reconcile succeeds exactly when no
  running legacy envelope blocks it: members that are down are started one after the other
  without waiting, so they are not ready yet when a migration asks for three ready members.
   */
  method ReconcileAll(h: Host, pf: Preflight, empty: bool) returns (ok: bool)
    requires h.Valid() && Shaped(pf) && Current(pf, h.w, 1, h.stable)
    modifies h`readings, h`reports, h`efforts, h`w, h`up, h`log
    ensures h.Valid() && Preserved(h) && h.w.files == old(h.w).files
    ensures h.reliable && SeenExactly(pf, old(h.w)) && Reviving(old(h.w), h.stableIP, 1) && !Blocked(old(h.w)) && !empty
            ==> ok && Reviving(h.w, h.stableIP, 4)
    ensures h.reliable && SeenExactly(pf, old(h.w)) && Reviving(old(h.w), h.stableIP, 1) && Blocked(old(h.w)) && !empty
            ==> !ok && !AllHealthy(h.w)
    ensures h.reliable && NoRecords(pf) && Booting(old(h.w), h.stableIP, 1, old(h.w).nextCluster) && empty
            ==> ok && OnCluster(h.w, old(h.w).nextCluster)
  {
    hide Quorate, Careful, Booting, Evolved, Confined, Current, Untouched, Reviving, KeptWhole, OnCluster, Healthy, SeenExactly;
    ExactRecords(pf, h.w);
    ghost var n := h.w.nextCluster;
    ghost var f := h.reliable && NoRecords(pf) && Booting(h.w, h.stableIP, 1, n) && empty;
    ghost var k := Blocker(h.w);
    ghost var c := h.reliable && SeenExactly(pf, h.w) && Reviving(h.w, h.stableIP, 1) && !empty;
    StillUntouched(h.w, h.log, h.stable);
    ok := true;
    var i := 1;
    while i <= 3 && ok
      invariant 1 <= i <= 4
      invariant h.Valid() && Preserved(h) && h.w.files == old(h.w).files
      invariant ok ==> Current(pf, h.w, i, h.stable)
      invariant c && i <= k ==> ok && Reviving(h.w, h.stableIP, i)
      invariant c && i <= k ==> forall j | i <= j <= 3 :: h.w.members[j] == old(h.w).members[j]
      invariant c ==> (AllHealthy(h.w) <==> AllHealthy(old(h.w)))
      invariant c && i > k ==> !ok
      invariant f ==> ok && Booting(h.w, h.stableIP, i, n)
    {
      ghost var w1, l1 := h.w, h.log;
      if c && i < k {
        Unblocked(h.w, h.stableIP, old(h.w), i);
      }
      ok := ReconcileNext(h, pf, i, empty, c, f, n);
      StitchCareful(old(h.w), old(h.log), w1, l1, h.w, h.log, h.stable);
      i := i + 1;
    }
    BootedIsOnCluster(h.w, h.stableIP, n);
  }

  method ReconcileNext(h: Host, pf: Preflight, i: Id, empty: bool, ghost c: bool, ghost f: bool, ghost n: nat) returns (ok: bool)
    requires h.Valid() && Shaped(pf) && Current(pf, h.w, i, h.stable)
    requires c ==> h.reliable && Reviving(h.w, h.stableIP, i) && pf.records[i] == h.w.members[i].envelope && !empty
    requires f ==> h.reliable && Booting(h.w, h.stableIP, i, n) && pf.records[i].Missing? && empty
    modifies h`readings, h`reports, h`efforts, h`w, h`up, h`log
    ensures h.Valid() && Preserved(h) && h.w.files == old(h.w).files
    ensures ok ==> Current(pf, h.w, i + 1, h.stable)
    ensures c && (Up(old(h.w), i) && old(h.w).members[i].envelope.legacy ==> AllHealthy(old(h.w)))
            ==> ok && Reviving(h.w, h.stableIP, i + 1) && (forall j | i < j <= 3 :: h.w.members[j] == old(h.w).members[j])
                   && (AllHealthy(h.w) <==> AllHealthy(old(h.w)))
    ensures c && Up(old(h.w), i) && old(h.w).members[i].envelope.legacy && !AllHealthy(old(h.w)) ==> !ok && h.w == old(h.w)
    ensures f ==> ok && Booting(h.w, h.stableIP, i + 1, n)
  {
    hide Quorate, Careful, Evolved, Confined, Current, Reviving, Booting, Reconciled, StartedWorld, LaunchedWorld, AllHealthy, Healthy, Lineal,
         Rested;
    if f {
      BootingStep(h.w, h.stableIP, i, n);
      LaunchThenRest(h.w, h.stableIP, i);
    }
    if c && (Up(h.w, i) && h.w.members[i].envelope.legacy ==> AllHealthy(h.w)) {
      RevivingStep(h.w, h.stableIP, i);
    }
    ok := ReconcileOne(h, pf, i, c, f, n);
    if ok && empty {
      ghost var w1, l1 := h.w, h.log;
      ok := AwaitReconciled(h, pf, i);
      StitchCareful(old(h.w), old(h.log), w1, l1, h.w, h.log, h.stable);
    }
  }

  method AwaitReconciled(h: Host, pf: Preflight, i: Id) returns (ok: bool)
    requires h.Valid() && Shaped(pf) && Current(pf, h.w, i + 1, h.stable)
    modifies h`w
    ensures h.Valid() && Preserved(h) && h.w.files == old(h.w).files && Current(pf, h.w, i + 1, h.stable)
    ensures h.reliable ==> h.w == Rested(old(h.w)) && (Healthy(h.w.members[i]) ==> ok)
  {
    ok := WaitMemberReady(h, i);
    StillCurrentAfterWatching(pf, old(h.w), h.w, i + 1, h.stable);
    EvolvedKeepsFiles(old(h.w), h.w, {}, h.stable);
    WatchingIsWork(old(h.w), h.w, h.log, i, h.stable);
  }

  lemma LaunchThenRest(w: World, stableIP: seq<nat>, i: Id)
    requires |stableIP| == 4 && w.network && !w.members[i].data.Absent?
    ensures Rested(LaunchedWorld(w, stableIP, i)) == StartedWorld(w, stableIP, i)
  {
  }

  method ReconcileOne(h: Host, pf: Preflight, i: Id, ghost c: bool, ghost f: bool, ghost n: nat) returns (ok: bool)
    requires h.Valid() && Shaped(pf) && Current(pf, h.w, i, h.stable)
    requires c ==> h.reliable && Reviving(h.w, h.stableIP, i) && pf.records[i] == h.w.members[i].envelope
    requires f ==> h.reliable && Booting(h.w, h.stableIP, i, n) && pf.records[i].Missing?
    modifies h`readings, h`reports, h`efforts, h`w, h`up, h`log
    ensures h.Valid() && Preserved(h) && h.w.files == old(h.w).files
    ensures Current(pf, h.w, i + 1, h.stable)
    ensures c && (Up(old(h.w), i) && old(h.w).members[i].envelope.legacy ==> AllHealthy(old(h.w)))
            ==> ok && h.w == Reconciled(old(h.w), h.stableIP, i)
    ensures c && Up(old(h.w), i) && old(h.w).members[i].envelope.legacy && !AllHealthy(old(h.w)) ==> !ok && h.w == old(h.w)
    ensures f ==> ok && h.w == LaunchedWorld(old(h.w), h.stableIP, i)
  {
    hide AddressesFree, Quorate, Careful, Confined, AllHealthy;
    if f {
      BootingStep(h.w, h.stableIP, i, n);
    }
    ok := ReconcileMember(h, i, pf.records[i]);
    StillCurrent(pf, old(h.w), h.w, i, h.stable);
    EvolvedKeepsFiles(old(h.w), h.w, {i}, h.stable);
  }

  lemma EvolvedKeepsFiles(w: World, after: World, t: set<int>, stable: bool)
    requires Evolved(w, after, t, {}, stable)
    ensures after.files == w.files && (VolumesComplete(w) ==> VolumesComplete(after))
  {
  }

  // ---- the whole call ----------------------------------------------------------------------------------------

  method JudgeCreate(h: Host) returns (ok: bool, pf: Preflight)
    requires h.Valid()
    modifies h`w
    ensures h.Valid() && h.OnlyWatched() && Shaped(pf)
    ensures ok ==> h.up && Seen(pf, h.w, h.stable) && (VolumeCount(pf) == 0 || VolumeCount(pf) == 3)
    ensures ok ==> AddressesFree(h.w, h.stableIP)
    ensures h.reliable && (VolumesComplete(h.w) || NoVolumes(h.w)) && AddressesFree(h.w, h.stableIP) ==> ok && SeenExactly(pf, h.w)
  {
    ok, pf := TakePreflight(h, false);
    if !ok {
      return false, NOTHING_SEEN;
    }
    ok := ValidateReservations(h.stableIP, pf.records);
    if ok {
      SeenIsFree(pf, h.w, h.stableIP, h.stable);
    }
  }

  /** Token, configuration and intent, before anything is created. */
  method WriteCreation(h: Host, empty: bool) returns (ok: bool)
    requires h.Valid()
    modifies h`w, h`up, h`call
    ensures h.Valid() && (h.up ==> old(h.up)) && (ok ==> h.up) && FilesOnly(old(h.w), h.w)
    ensures h.w.files.desired == old(h.w).files.desired || h.w.files.desired == Some(DEFAULT_INTENT)
    ensures old(h.w).files.config ==> h.w.files.config
    ensures ok ==> h.w.files.config && h.w.files.token.Some? && h.w.files.desired == Some(DEFAULT_INTENT)
    ensures h.reliable && (old(h.w).files.token.Some? || empty) && ReadableIntent(old(h.w).files) ==> ok
  {
    ok := h.up;
    if h.w.files.token.None? {
      if !empty {
        return false;
      }
      var generated: int := *;
      ok := h.Write(PutToken(if generated < 0 then 0 else generated));
    }
    if ok {
      ok := h.Write(PutConfig);
    }
    if ok {
      ok := MarkClusterRunning(h);
    }
  }

  /** Publish the kubeconfig, make the cluster current, and see three ready members. */
  method FinishCreation(h: Host) returns (ok: bool)
    requires h.Valid()
    modifies h`readings, h`w, h`up, h`call
    ensures h.Valid() && Preserved(h)
    ensures h.w.files == old(h.w).files.(kubeconfig := h.w.files.kubeconfig, current := h.w.files.current)
    ensures h.reliable && AllHealthy(old(h.w)) && old(h.w).files.config ==> ok && h.w.members == old(h.w).members
  {
    hide Quorate, Careful, Evolved, Untouched;
    StillUntouched(h.w, h.log, h.stable);
    AllHealthyRests(h.w);
    ok := WriteAccess(h);
    FilesKeep(old(h.w), h.w, h.log);
    if ok {
      ghost var w1 := h.w;
      ok := WaitClusterReady(h);
      EvolvedKeepsFiles(w1, h.w, {}, h.stable);
      WatchingIsWork(w1, h.w, h.log, 1, h.stable);
    }
  }

  /** With all three ready, waiting brings nothing new, whatever the files. */
  lemma AllHealthyRests(w: World)
    ensures AllHealthy(w) ==> Up(w, SEED)
    ensures forall after: World :: after.members == w.members && AllHealthy(w) ==> AllHealthy(after) && Rested(after) == after
  {
    forall after: World | after.members == w.members && AllHealthy(w) ensures Rested(after) == after {
      assert Rested(after).members == after.members;
    }
  }

  method WriteAccess(h: Host) returns (ok: bool)
    requires h.Valid()
    modifies h`w, h`up, h`call
    ensures h.Valid() && (h.up ==> old(h.up)) && FilesOnly(old(h.w), h.w)
    ensures h.w.files == old(h.w).files.(kubeconfig := h.w.files.kubeconfig, current := h.w.files.current)
    ensures h.reliable && Up(old(h.w), SEED) ==> ok
  {
    var readable: bool := *;
    ok := h.up && Up(h.w, SEED) && (readable || h.reliable);
    if ok {
      ok := h.Write(PutKubeconfig);
    }
    if ok {
      ok := h.Write(PutCurrent);
    }
  }

  method WaitEach(h: Host) returns (ok: bool)
    requires h.Valid()
    modifies h`w
    ensures h.Valid() && h.Waited()
    ensures h.reliable && AllHealthy(h.w) ==> ok
  {
    WatchedNothing(h.w, h.stable);
    RestedDrifts(h.w, h.stable);
    ok := true;
    for i := 1 to 4
      invariant h.Valid() && h.up == old(h.up) && h.log == old(h.log) && h.call == old(h.call) && Watched(old(h.w), h.w, h.stable)
      invariant i == 1 ==> ok
      invariant i > 1 ==> h.Waited()
      invariant h.reliable ==> h.w == (if i > 1 then Rested(old(h.w)) else old(h.w))
      invariant h.reliable && AllHealthy(h.w) ==> ok
    {
      if ok {
        ghost var w1 := h.w;
        ok := WaitMemberReady(h, i);
        WatchedTrans(old(h.w), w1, h.w, h.stable);
      }
    }
  }

  lemma SeenIsCurrent(pf: Preflight, w: World, stable: bool)
    requires Seen(pf, w, stable)
    ensures Current(pf, w, 1, stable) && (VolumesComplete(w) ==> VolumeCount(pf) == 3)
  {
    assert MemberSeen(pf, w, 1, stable) && MemberSeen(pf, w, 2, stable) && MemberSeen(pf, w, 3, stable);
  }

  lemma UntouchedIsCurrent(pf: Preflight, w: World, after: World, stable: bool)
    requires Shaped(pf) && Current(pf, w, 1, stable) && Untouched(w, after, stable)
    ensures Current(pf, after, 1, stable) && after.files == w.files
  {
    assert EnvelopeDrift(w.members[1].envelope, after.members[1].envelope, stable);
    assert EnvelopeDrift(w.members[2].envelope, after.members[2].envelope, stable);
    assert EnvelopeDrift(w.members[3].envelope, after.members[3].envelope, stable);
  }

  /** Configuration and running intent are saved; so they are before the first command on the runtime. */
  predicate IntentFirst(f: Files) {
    f.config && f.desired == Some(DEFAULT_INTENT)
  }

  /** The files a create or start may change. */
  predicate CreationFiles(f: Files, g: Files) {
    && g == f.(config := g.config, token := g.token, desired := g.desired, kubeconfig := g.kubeconfig, current := g.current)
    && (g.desired == f.desired || g.desired == Some(DEFAULT_INTENT)) && (f.config ==> g.config)
  }

  /** Everything from the first created resource to the last readiness check. */
  method BuildCluster(h: Host, pf: Preflight) returns (ok: bool)
    requires h.Valid() && Shaped(pf) && Current(pf, h.w, 1, h.stable) && (VolumesComplete(h.w) ==> VolumeCount(pf) == 3)
    modifies h`readings, h`reports, h`efforts, h`w, h`up, h`log, h`call
    ensures h.Valid() && Preserved(h)
    ensures h.w.files == old(h.w).files.(kubeconfig := h.w.files.kubeconfig, current := h.w.files.current)
    ensures h.reliable && SeenExactly(pf, old(h.w)) && Reviving(old(h.w), h.stableIP, 1) && !Blocked(old(h.w))
            ==> ok && AllHealthy(h.w)
    ensures h.reliable && SeenExactly(pf, old(h.w)) && Reviving(old(h.w), h.stableIP, 1) && Blocked(old(h.w))
            ==> !ok && !AllHealthy(h.w)
    ensures h.reliable && SeenExactly(pf, old(h.w)) && Fresh(old(h.w)) && old(h.w).files.config
            ==> ok && OnCluster(h.w, old(h.w).nextCluster)
  {
    hide KeptWhole, Quorate, Careful, Evolved, Confined, Current, Reviving, Untouched, SeenExactly, Blocked, AllHealthy, Booting, NoRecords,
         Fresh, Built, OnCluster;
    SeenGround(pf, h.w, h.stableIP);
    if h.pledged {
      PledgedIsComplete(h.w, h.log, h.since);
    }
    FreshBoots(pf, h.w, h.stableIP);
    FreshIsEmpty(pf, h.w);
    ok := CreateInfrastructure(h, pf);
    UntouchedIsCurrent(pf, old(h.w), h.w, h.stable);
    if !ok {
      return;
    }

    ghost var w1, l1 := h.w, h.log;
    ok := ReconcileAndWait(h, pf);
    StitchCareful(old(h.w), old(h.log), w1, l1, h.w, h.log, h.stable);
    if ok {
      ghost var w2, l2 := h.w, h.log;
      ok := FinishCreation(h);
      OnClusterWhateverFiles(w2, h.w, old(h.w).nextCluster);
      StitchCareful(old(h.w), old(h.log), w2, l2, h.w, h.log, h.stable);
    }
  }

  lemma SeenGround(pf: Preflight, w: World, stableIP: seq<nat>)
    requires |stableIP| == 4
    ensures SeenExactly(pf, w) && Reviving(w, stableIP, 1) ==> pf.network && VolumeCount(pf) == 3 && w.files.config
  {
  }

  lemma PledgedIsComplete(w: World, log: seq<Entry>, since: nat)
    requires KeptWhole(w, log, since)
    ensures VolumesComplete(w)
  {
  }

  /** A host with none of the cluster's envelopes and volumes. */
  predicate Fresh(w: World) {
    NoEnvelopes(w) && NoVolumes(w)
  }

  lemma FreshBoots(pf: Preflight, w: World, stableIP: seq<nat>)
    requires |stableIP| == 4 && Shaped(pf)
    ensures Fresh(w) ==> Booting(Built(w), stableIP, 1, w.nextCluster) && NoVolumes(w)
    ensures Fresh(w) && SeenExactly(pf, w) ==> NoRecords(pf)
    ensures Built(w).files == w.files && Built(w).nextCluster == w.nextCluster
  {
  }

  lemma OnClusterWhateverFiles(w: World, after: World, c: nat)
    ensures OnCluster(w, c) ==> AllHealthy(w)
    ensures OnCluster(w, c) && after.members == w.members ==> OnCluster(after, c)
    ensures AllHealthy(w) && after.members == w.members ==> AllHealthy(after)
  {
  }

  method ReconcileAndWait(h: Host, pf: Preflight) returns (ok: bool)
    requires h.Valid() && Shaped(pf) && Current(pf, h.w, 1, h.stable)
    modifies h`readings, h`reports, h`efforts, h`w, h`up, h`log
    ensures h.Valid() && Preserved(h) && h.w.files == old(h.w).files
    ensures h.reliable && SeenExactly(pf, old(h.w)) && Reviving(old(h.w), h.stableIP, 1) && !Blocked(old(h.w))
            ==> ok && AllHealthy(h.w)
    ensures h.reliable && SeenExactly(pf, old(h.w)) && Reviving(old(h.w), h.stableIP, 1) && Blocked(old(h.w))
            ==> !ok && !AllHealthy(h.w)
    ensures h.reliable && NoRecords(pf) && Booting(old(h.w), h.stableIP, 1, old(h.w).nextCluster) && VolumeCount(pf) == 0
            ==> ok && OnCluster(h.w, old(h.w).nextCluster)
  {
    hide Quorate, Careful, Evolved, Confined, Current, Reviving, Untouched, SeenExactly, Blocked, Booting, NoRecords;
    var empty := VolumeCount(pf) == 0;
    SeenGround(pf, h.w, h.stableIP);
    ok := ReconcileAll(h, pf, empty);
    if ok && !empty {
      if Reviving(h.w, h.stableIP, 4) {
        RevivedIsHealthy(h.w, h.stableIP);
      }
      ghost var w1, l1 := h.w, h.log;
      ok := WaitEach(h);
      EvolvedKeepsFiles(w1, h.w, {}, h.stable);
      WatchingIsWork(w1, h.w, l1, 1, h.stable);
      StitchCareful(old(h.w), old(h.log), w1, l1, h.w, h.log, h.stable);
    }
  }

  /** CreateHA under the lock: also the idempotent reconcile of an existing cluster. */
  method CreateLocked(h: Host) returns (ok: bool)
    requires h.Valid()
    modifies h`readings, h`reports, h`efforts, h`w, h`up, h`log, h`call
    ensures h.Valid() && Preserved(h) && CreationFiles(old(h.w).files, h.w.files)
    ensures h.log != old(h.log) ==> IntentFirst(h.w.files)
    ensures h.reliable && Creatable(old(h.w)) && Reviving(old(h.w), h.stableIP, 1) && !Blocked(old(h.w))
            ==> ok && AllHealthy(h.w)
    ensures h.reliable && Creatable(old(h.w)) && Reviving(old(h.w), h.stableIP, 1) && Blocked(old(h.w))
            ==> !ok && !AllHealthy(h.w)
    ensures h.reliable && Fresh(old(h.w)) && ReadableIntent(old(h.w).files)
            ==> ok && OnCluster(h.w, old(h.w).nextCluster)
  {
    hide Quorate, Careful, Evolved, Confined, Current, Reviving, Untouched, SeenExactly, Seen, Blocked, AllHealthy, Fresh, OnCluster;
    var pf;
    FreshIsFree(h.w, h.stableIP);
    ok, pf := JudgeCreate(h);
    WatchingIsWork(old(h.w), h.w, h.log, 1, h.stable);
    EvolvedKeepsFiles(old(h.w), h.w, {}, h.stable);
    RevivingGround(old(h.w), h.stableIP);
    if !ok {
      return;
    }
    SeenIsCurrent(pf, h.w, h.stable);
    ghost var w1, l1 := h.w, h.log;
    ok := WriteAndBuild(h, pf);
    StitchCareful(old(h.w), old(h.log), w1, l1, h.w, h.log, h.stable);
  }

  lemma FreshIsFree(w: World, stableIP: seq<nat>)
    requires |stableIP| == 4
    ensures Fresh(w) ==> NoVolumes(w) && AddressesFree(w, stableIP)
  {
  }

  predicate Creatable(w: World) {
    w.files.token.Some? && ReadableIntent(w.files)
  }

  lemma RevivingGround(w: World, stableIP: seq<nat>)
    requires |stableIP| == 4
    ensures Reviving(w, stableIP, 1) ==> Ground(w) && AddressesFree(w, stableIP)
  {
  }

  method WriteAndBuild(h: Host, pf: Preflight) returns (ok: bool)
    requires h.Valid() && Shaped(pf) && Current(pf, h.w, 1, h.stable) && (VolumesComplete(h.w) ==> VolumeCount(pf) == 3)
    modifies h`readings, h`reports, h`efforts, h`w, h`up, h`log, h`call
    ensures h.Valid() && Preserved(h) && CreationFiles(old(h.w).files, h.w.files)
    ensures h.log != old(h.log) ==> IntentFirst(h.w.files)
    ensures h.reliable && SeenExactly(pf, old(h.w)) && Creatable(old(h.w)) && Reviving(old(h.w), h.stableIP, 1) && !Blocked(old(h.w))
            ==> ok && AllHealthy(h.w)
    ensures h.reliable && SeenExactly(pf, old(h.w)) && Creatable(old(h.w)) && Reviving(old(h.w), h.stableIP, 1) && Blocked(old(h.w))
            ==> !ok && !AllHealthy(h.w)
    ensures h.reliable && SeenExactly(pf, old(h.w)) && Fresh(old(h.w)) && ReadableIntent(old(h.w).files)
            ==> ok && OnCluster(h.w, old(h.w).nextCluster)
  {
    hide Quorate, Careful, Evolved, Confined, Current, Reviving, Untouched, SeenExactly, Blocked, AllHealthy, OnCluster;
    FreshIsEmpty(pf, h.w);
    ok := WriteCreation(h, VolumeCount(pf) == 0);
    FilesKeep(old(h.w), h.w, h.log);
    if ok {
      ghost var w1, l1 := h.w, h.log;
      RevivingWhateverFiles(old(h.w), w1, h.stableIP, pf);
      ok := BuildCluster(h, pf);
      StitchCareful(old(h.w), old(h.log), w1, l1, h.w, h.log, h.stable);
    }
  }

  lemma FreshIsEmpty(pf: Preflight, w: World)
    requires Shaped(pf)
    ensures SeenExactly(pf, w) && Fresh(w) ==> VolumeCount(pf) == 0
  {
  }

  lemma RevivingWhateverFiles(w: World, after: World, stableIP: seq<nat>, pf: Preflight)
    requires |stableIP| == 4 && FilesOnly(w, after) && after.files.config
    ensures Reviving(w, stableIP, 1) ==> Reviving(after, stableIP, 1)
    ensures SeenExactly(pf, w) ==> SeenExactly(pf, after)
    ensures Blocked(after) == Blocked(w)
    ensures forall stable :: Shaped(pf) && Current(pf, w, 1, stable) ==> Current(pf, after, 1, stable)
  {
    FreeWhateverFiles(w, after, stableIP);
  }
}
