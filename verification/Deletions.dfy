/**
DeleteHA: remove envelopes, then volumes and network, then the durable files with the
configuration last, so that an interrupted deletion can be run again.
 */
module Deletions {
  import opened Options
  import opened Journals
  import opened Worlds
  import opened Hosts
  import opened Intents
  import opened Statuses
  import opened Stops

  /** No server, volume, network and recorded state is left, but perhaps the configuration. */
  predicate Erased(w: World) {
    && NoEnvelopes(w) && NoVolumes(w) && !w.network
    && !w.files.kubeconfig && w.files.token.None? && w.files.journal.None? && w.files.desired.None?
  }

  /** What no deletion removes: the staging directory of a restore, and helpers that are still there. */
  predicate LeavesStage(w: World, after: World) {
    after.files.staging == w.files.staging && forall k | 0 <= k <= 3 :: HelperUndisturbed(w, after, k)
  }

  lemma LeavesStageTrans(a: World, b: World, c: World)
    ensures LeavesStage(a, b) && LeavesStage(b, c) ==> LeavesStage(a, c)
  {
    if LeavesStage(a, b) && LeavesStage(b, c) {
      forall k | 0 <= k <= 3 ensures HelperUndisturbed(a, c, k) {
        assert HelperUndisturbed(a, b, k) && HelperUndisturbed(b, c, k);
      }
    }
  }

  lemma LeavesStageFiles(found: World, w: World, after: World)
    requires LeavesStage(found, w) && after == w.(files := after.files) && after.files.staging == w.files.staging
    ensures LeavesStage(found, after)
  {
    forall k | 0 <= k <= 3 ensures HelperUndisturbed(found, after, k) {
      assert HelperUndisturbed(found, w, k);
    }
  }

  // ---- envelopes --------------------------------------------------------------------------------------

  method DeleteEnvelope(h: Host, i: Id, seen: Envelope) returns (ok: bool)
    requires h.Valid() && EnvelopeDrift(seen, h.w.members[i].envelope, h.stable)
    modifies h`w, h`up, h`log
    ensures h.Valid() && (h.up ==> old(h.up)) && h.call == old(h.call)
    ensures Evolved(old(h.w), h.w, {i}, {}, h.stable)
    ensures ok ==> h.w.members[i].envelope.Missing?
    ensures h.reliable ==> ok
  {
    EvolvedNothing(h.w, {i}, {}, h.stable);
    if seen.Missing? {
      return true;
    }
    if seen.Running? {
      ok := h.Stop(i);
      if !ok {
        return;
      }
    }

    ghost var w1 := h.w;
    ok := h.Delete(i);
    EvolvedTrans(old(h.w), w1, h.w, {i}, {i}, {}, {}, h.stable);
    assert {i} + {i} == {i};
  }

  lemma EvolvedNothing(w: World, t: set<int>, helpers: set<int>, stable: bool)
    ensures Evolved(w, w, t, helpers, stable)
  {
  }

  /** Stop and delete, last member first, giving up at the first failure. */
  method DeleteEnvelopes(h: Host, pf: Preflight) returns (ok: bool)
    requires h.Valid() && Seen(pf, h.w, h.stable)
    modifies h`w, h`up, h`log
    ensures h.Valid() && (h.up ==> old(h.up)) && h.call == old(h.call)
    ensures Evolved(old(h.w), h.w, {1, 2, 3}, {}, h.stable)
    ensures ok ==> NoEnvelopes(h.w)
    ensures h.reliable ==> ok
  {
    hide KeptWhole;
    assert MemberSeen(pf, h.w, 1, h.stable) && MemberSeen(pf, h.w, 2, h.stable) && MemberSeen(pf, h.w, 3, h.stable);
    EvolvedNothing(h.w, {}, {}, h.stable);
    ok := true;
    var i := MEMBER_COUNT;
    while i >= 1 && ok
      invariant 0 <= i <= 3
      invariant h.Valid() && (h.up ==> old(h.up)) && h.call == old(h.call)
      invariant Evolved(old(h.w), h.w, From(i + 1), {}, h.stable)
      invariant ok ==> (i < 3 ==> h.w.members[3].envelope.Missing?) && (i < 2 ==> h.w.members[2].envelope.Missing?)
                       && (i < 1 ==> h.w.members[1].envelope.Missing?)
      invariant h.reliable ==> ok
    {
      ghost var w1 := h.w;
      assert Undisturbed(old(h.w), w1, i, h.stable);
      ok := DeleteEnvelope(h, i, pf.records[i]);
      EvolvedTrans(old(h.w), w1, h.w, From(i + 1), {i}, {}, {}, h.stable);
      assert From(i + 1) + {i} == From(i);
      assert i == 1 || Undisturbed(w1, h.w, 1, h.stable);
      assert i == 2 || Undisturbed(w1, h.w, 2, h.stable);
      assert i == 3 || Undisturbed(w1, h.w, 3, h.stable);
      i := i - 1;
    }
    EvolvedWidens(old(h.w), h.w, From(i + 1), {1, 2, 3}, {}, {}, h.stable);
  }

  // ---- volumes and network ------------------------------------------------------------------------------

  /** Only infrastructure went away: no envelope, helper or file was operated on. */
  predicate Shrunk(w: World, after: World, stable: bool) {
    && Untouched(w, after, stable)
    && (after.network ==> w.network)
    && (forall j | 1 <= j <= 3 :: w.members[j].data.Absent? ==> after.members[j].data.Absent?)
  }

  lemma ShrunkTrans(a: World, b: World, c: World, stable: bool)
    requires Shrunk(a, b, stable) && Shrunk(b, c, stable)
    ensures Shrunk(a, c, stable)
  {
    forall j | 1 <= j <= 3 ensures EnvelopeDrift(a.members[j].envelope, c.members[j].envelope, stable) {
      assert EnvelopeDrift(a.members[j].envelope, b.members[j].envelope, stable);
      assert EnvelopeDrift(b.members[j].envelope, c.members[j].envelope, stable);
    }
    forall k | 0 <= k <= 3 ensures HelperUndisturbed(a, c, k) {
      assert HelperUndisturbed(a, b, k) && HelperUndisturbed(b, c, k);
    }
  }

  lemma ShrunkKeepsNone(w: World, after: World, stable: bool)
    requires Shrunk(w, after, stable)
    ensures NoEnvelopes(w) ==> NoEnvelopes(after)
    ensures NoVolumes(w) ==> NoVolumes(after)
  {
    assert EnvelopeDrift(w.members[1].envelope, after.members[1].envelope, stable);
    assert EnvelopeDrift(w.members[2].envelope, after.members[2].envelope, stable);
    assert EnvelopeDrift(w.members[3].envelope, after.members[3].envelope, stable);
  }

  method DeleteVolumes(h: Host, volumes: seq<bool>) returns (ok: bool)
    requires h.Valid() && !h.pledged && |volumes| == 4 && NoEnvelopes(h.w)
    requires forall i | 1 <= i <= 3 :: volumes[i] == !h.w.members[i].data.Absent?
    modifies h`w, h`up, h`log
    ensures h.Valid() && (h.up ==> old(h.up)) && h.call == old(h.call) && Shrunk(old(h.w), h.w, h.stable)
    ensures h.w.network == old(h.w).network
    ensures ok ==> NoVolumes(h.w)
    ensures h.reliable ==> ok
  {
    hide Untouched;
    NothingShrunk(h.w, h.stable);
    ok := true;
    var i := MEMBER_COUNT;
    while i >= 1 && ok
      invariant 0 <= i <= 3
      invariant h.Valid() && (h.up ==> old(h.up)) && h.call == old(h.call) && Shrunk(old(h.w), h.w, h.stable) && NoEnvelopes(h.w)
      invariant h.w.network == old(h.w).network
      invariant forall j | 1 <= j <= i :: volumes[j] == !h.w.members[j].data.Absent?
      invariant ok ==> forall j | i < j <= 3 :: h.w.members[j].data.Absent?
      invariant h.reliable ==> ok
    {
      if volumes[i] {
        ghost var w1 := h.w;
        ok := h.DropVolume(i);
        ShrunkKeepsNone(w1, h.w, h.stable);
        ShrunkTrans(old(h.w), w1, h.w, h.stable);
      }
      i := i - 1;
    }
  }

  lemma NothingShrunk(w: World, stable: bool)
    ensures Shrunk(w, w, stable)
  {
  }

  method DeleteInfrastructure(h: Host, pf: Preflight) returns (ok: bool)
    requires h.Valid() && !h.pledged && Shaped(pf) && NoEnvelopes(h.w) && pf.network == h.w.network
    requires forall i | 1 <= i <= 3 :: pf.volumes[i] == !h.w.members[i].data.Absent?
    modifies h`w, h`up, h`log
    ensures h.Valid() && (h.up ==> old(h.up)) && h.call == old(h.call) && h.w.files == old(h.w).files
    ensures LeavesStage(old(h.w), h.w)
    ensures ok ==> NoEnvelopes(h.w) && NoVolumes(h.w) && !h.w.network
    ensures h.reliable ==> ok
  {
    ok := DeleteVolumes(h, pf.volumes);
    ghost var w1 := h.w;
    ShrunkKeepsNone(old(h.w), w1, h.stable);
    if ok && pf.network {
      ok := h.DropNetwork();
      ShrunkKeepsNone(w1, h.w, h.stable);
      LeavesStageTrans(old(h.w), w1, h.w);
    }
  }

  // ---- files -----------------------------------------------------------------------------------------------

  /** Remove the state files in order, the configuration last, then the pointer to the current cluster. */
  method DeleteFiles(h: Host) returns (ok: bool)
    requires h.Valid() && NoEnvelopes(h.w) && NoVolumes(h.w) && !h.w.network && h.w.files.config
    modifies h`w, h`up, h`call
    ensures h.Valid() && (h.up ==> old(h.up)) && h.w == old(h.w).(files := h.w.files)
    ensures h.w.files.config || Erased(h.w)
    ensures h.w.files.config ==> h.w.files.current == old(h.w).files.current
    ensures ok ==> Erased(h.w) && !h.w.files.config && !h.w.files.current
    ensures h.w.files.staging == old(h.w).files.staging
    ensures h.reliable ==> ok
  {
    hide KeptWhole;
    ok := h.Write(DropKubeconfig);
    if ok {
      ok := h.Write(DropToken);
    }
    if ok {
      ok := h.Write(DropJournal);
    }
    if ok {
      ok := h.Write(DropDesired);
    }
    if ok {
      ok := DropLast(h);
    }
  }

  method DropLast(h: Host) returns (ok: bool)
    requires h.Valid()
    requires h.w.files.config && Erased(h.w)
    modifies h`w, h`up, h`call
    ensures h.Valid() && (h.up ==> old(h.up)) && h.w == old(h.w).(files := h.w.files) && Erased(h.w)
    ensures h.w.files.config ==> h.w.files.current == old(h.w).files.current
    ensures ok ==> !h.w.files.config && !h.w.files.current
    ensures h.w.files.staging == old(h.w).files.staging
    ensures h.reliable ==> ok
  {
    ok := h.Write(DropConfig);
    if ok {
      ok := h.Write(DropCurrent);
    }
  }

  // ---- the whole deletion -------------------------------------------------------------------------------------

  lemma OwnedBefore(w: World, after: World, foreign: set<Resource>, stable: bool)
    requires Watched(w, after, stable) && AllOwned(after, foreign)
    ensures AllOwned(w, foreign)
  {
    forall i: Id | 1 <= i <= 3 ensures OwnedMember(w, i, foreign) {
      assert Undisturbed(w, after, i, stable) && OwnedMember(after, i, foreign);
    }
  }

  /**
  Delete the cluster. Nothing is touched unless everything that exists is the cluster's own, and
  wherever a full deletion stops, either the configuration still allows another try or no server,
  volume, network and recorded state is left. What an interrupted restore staged stays.
   */
  method DeleteHA(h: Host, keepData: bool) returns (ok: bool)
    requires h.Valid() && !h.pledged
    modifies h`w, h`up, h`log, h`call
    ensures h.Valid() && (h.up ==> old(h.up))
    ensures h.log != old(h.log) ==> AllOwned(old(h.w), h.foreign)
    ensures !old(h.w).files.config ==> !ok && h.w == old(h.w) && h.log == old(h.log)
    ensures !keepData && old(h.w).files.config ==> h.w.files.config || Erased(h.w)
    ensures !keepData && ok ==> Erased(h.w) && !h.w.files.config && !h.w.files.current
    ensures keepData ==> h.w.files == old(h.w).files.(desired := h.w.files.desired)
    ensures keepData && ok ==> NoEnvelopes(h.w) && StillThere(old(h.w), h.w)
    ensures LeavesStage(old(h.w), h.w)
    ensures h.reliable && old(h.w).files.config && (keepData ==> ReadableIntent(old(h.w).files)) ==> ok
  {
    hide KeptWhole, ValidDesired, Erased, LeavesStage, StillThere, AllOwned;
    ok := h.w.files.config && h.up;
    SinceIntent(h.w, h.w, h.w, h.foreign);
    if !ok {
      return;
    }
    if keepData {
      ok := MarkClusterStopped(h);
      SinceIntent(old(h.w), h.w, h.w, h.foreign);
      if !ok {
        return;
      }
    }

    ghost var w1 := h.w;
    ok := DeleteInspected(h, keepData);
    SinceIntent(old(h.w), w1, h.w, h.foreign);
  }

  /** The intent has nothing to do with what a deletion looks at. */
  lemma SinceIntent(found: World, w: World, after: World, foreign: set<Resource>)
    requires w == found.(files := found.files.(desired := w.files.desired))
    ensures AllOwned(w, foreign) ==> AllOwned(found, foreign)
    ensures StillThere(w, after) ==> StillThere(found, after)
    ensures LeavesStage(w, after) ==> LeavesStage(found, after)
    ensures LeavesStage(found, w)
  {
    if AllOwned(w, foreign) {
      assert forall i: Id | 1 <= i <= 3 :: OwnedMember(w, i, foreign) == OwnedMember(found, i, foreign);
    }
    assert forall k | 0 <= k <= 3 :: HelperUndisturbed(w, after, k) == HelperUndisturbed(found, after, k);
  }

  method DeleteInspected(h: Host, keepData: bool) returns (ok: bool)
    requires h.Valid() && !h.pledged && h.w.files.config
    modifies h`w, h`up, h`log, h`call
    ensures h.Valid() && (h.up ==> old(h.up))
    ensures h.log != old(h.log) ==> AllOwned(old(h.w), h.foreign)
    ensures !keepData ==> h.w.files.config || Erased(h.w)
    ensures !keepData && ok ==> Erased(h.w) && !h.w.files.config && !h.w.files.current
    ensures keepData ==> h.w.files == old(h.w).files
    ensures keepData && ok ==> NoEnvelopes(h.w) && StillThere(old(h.w), h.w)
    ensures LeavesStage(old(h.w), h.w)
    ensures h.reliable ==> ok
  {
    hide KeptWhole, Watched, AllOwned, Evolved, Lineal, Seen, LeavesStage, Erased;
    var pf;
    ok, pf := TakePreflight(h, true);
    ghost var w1 := h.w;
    VolumesWatched(old(h.w), w1, h.stable);
    if !ok {
      return;
    }
    OwnedBefore(old(h.w), w1, h.foreign, h.stable);
    ok := DeleteSeen(h, pf, keepData);
    LeavesStageTrans(old(h.w), w1, h.w);
  }

  /** Network and volumes are as they were. */
  predicate StillThere(w: World, after: World) {
    && after.network == w.network
    && (forall i | 1 <= i <= 3 :: after.members[i].data.Absent? <==> w.members[i].data.Absent?)
  }

  lemma VolumesWatched(w: World, after: World, stable: bool)
    requires Watched(w, after, stable)
    ensures StillThere(w, after) && after.files == w.files && LeavesStage(w, after)
  {
  }

  method DeleteSeen(h: Host, pf: Preflight, keepData: bool) returns (ok: bool)
    requires h.Valid() && !h.pledged && Seen(pf, h.w, h.stable) && h.w.files.config
    modifies h`w, h`up, h`log, h`call
    ensures h.Valid() && (h.up ==> old(h.up))
    ensures !keepData ==> h.w.files.config || Erased(h.w)
    ensures !keepData && ok ==> Erased(h.w) && !h.w.files.config && !h.w.files.current
    ensures keepData ==> h.w.files == old(h.w).files
    ensures keepData && ok ==> NoEnvelopes(h.w) && StillThere(old(h.w), h.w)
    ensures LeavesStage(old(h.w), h.w)
    ensures h.reliable ==> ok
  {
    VolumesSeen(pf, h.w, h.stable);
    ok := DeleteEnvelopes(h, pf);
    VolumesEvolved(old(h.w), h.w, h.stable);
    hide Evolved, Seen, MemberSeen;
    if ok && !keepData {
      ghost var w1 := h.w;
      ok := DeleteInfrastructure(h, pf);
      LeavesStageTrans(old(h.w), w1, h.w);
      if ok {
        ghost var w2 := h.w;
        ok := DeleteFiles(h);
        LeavesStageFiles(old(h.w), w2, h.w);
      }
    }
  }

  lemma VolumesSeen(pf: Preflight, w: World, stable: bool)
    requires Seen(pf, w, stable)
    ensures forall i | 1 <= i <= 3 :: pf.volumes[i] == !w.members[i].data.Absent?
  {
    forall i | 1 <= i <= 3 ensures pf.volumes[i] == !w.members[i].data.Absent? {
      assert MemberSeen(pf, w, i, stable);
    }
  }

  lemma VolumesEvolved(w: World, after: World, stable: bool)
    requires Evolved(w, after, {1, 2, 3}, {}, stable)
    ensures StillThere(w, after) && after.files == w.files && LeavesStage(w, after)
  {
  }

  /** A full deletion on a host that may fail in every way and die anywhere, and then again without faults. */
  method DeleteTwice(w: World, stable: bool, stableIP: seq<nat>, foreign: set<Resource>) returns (h: Host, ghost left: World)
    requires |stableIP| == 4 && forall i, j | 1 <= i < j <= 3 :: stableIP[i] != stableIP[j]
    requires w.files.config
    ensures fresh(h) && Erased(h.w) && !h.w.files.config && (left.files.config || Erased(left))
    ensures h.w.files.current <==> !left.files.config && left.files.current
    ensures LeavesStage(w, h.w)
  {
    var first := new Host(w, false, stable, stableIP, foreign);
    var tried := DeleteHA(first, false);
    left := first.w;
    h := new Host(first.w, true, true, stableIP, {});
    var again := DeleteAgain(h);
    LeavesStageTrans(w, left, h.w);
  }

  /**
  A full deletion cut short anywhere and run again leaves no server, volume, network and recorded
  state. The pointer to the current cluster survives exactly when the first run died between the
  configuration and that pointer; the staging directory and the helpers survive always.
   */
  method DeleteAgain(h: Host) returns (ok: bool)
    requires h.Valid() && !h.pledged && h.reliable && (h.w.files.config || Erased(h.w))
    modifies h`w, h`up, h`log, h`call
    ensures Erased(h.w) && !h.w.files.config
    ensures h.w.files.current <==> !old(h.w).files.config && old(h.w).files.current
    ensures ok <==> old(h.w).files.config
    ensures LeavesStage(old(h.w), h.w)
  {
    ok := DeleteHA(h, false);
  }
}
