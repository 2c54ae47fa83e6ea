/**
Reading the cluster: the ownership preflight every operation starts with, the status of the
three members, and the polling loops that wait for readiness.
 */
module Statuses {
  import opened Options
  import opened Journals
  import opened Worlds
  import opened Hosts

  /** What the preflight found; slots 1 to 3 belong to the members. */
  datatype Preflight = Preflight(network: bool, volumes: seq<bool>, records: seq<Envelope>)

  const NOTHING_SEEN := Preflight(false, [false, false, false, false], [Missing, Missing, Missing, Missing])

  predicate Shaped(pf: Preflight) {
    |pf.volumes| == 4 && |pf.records| == 4
  }

  predicate MemberSeen(pf: Preflight, w: World, i: int, stable: bool)
    requires Shaped(pf) && 0 <= i <= 3
  {
    && pf.volumes[i] == !w.members[i].data.Absent?
    && EnvelopeDrift(pf.records[i], w.members[i].envelope, stable)
  }

  /** The findings still describe the world, up to what the world does on its own. */
  predicate Seen(pf: Preflight, w: World, stable: bool) {
    && Shaped(pf)
    && pf.network == w.network
    && (forall i | 1 <= i <= 3 :: MemberSeen(pf, w, i, stable))
  }

  predicate SeenExactly(pf: Preflight, w: World) {
    && Shaped(pf)
    && pf.network == w.network
    && (forall i | 1 <= i <= 3 :: pf.volumes[i] == !w.members[i].data.Absent?)
    && (forall i | 1 <= i <= 3 :: pf.records[i] == w.members[i].envelope)
  }

  predicate MemberExact(pf: Preflight, w: World, i: int)
    requires Shaped(pf) && 0 <= i <= 3
  {
    pf.volumes[i] == !w.members[i].data.Absent? && pf.records[i] == w.members[i].envelope
  }

  function VolumeCount(pf: Preflight): (r: nat)
    requires Shaped(pf)
  {
    (if pf.volumes[1] then 1 else 0) + (if pf.volumes[2] then 1 else 0) + (if pf.volumes[3] then 1 else 0)
  }

  function VolumeIds(pf: Preflight): (r: set<int>)
    requires Shaped(pf)
  {
    set i | 1 <= i <= 3 && pf.volumes[i]
  }

  /** Nothing of somebody else's hides under one of the cluster's names. */
  predicate AllOwned(w: World, foreign: set<Resource>) {
    && (w.network ==> Network !in foreign)
    && (forall i: Id | 1 <= i <= 3 :: OwnedMember(w, i, foreign))
  }

  predicate OwnedMember(w: World, i: Id, foreign: set<Resource>) {
    && (!w.members[i].data.Absent? ==> VolumeOf(i) !in foreign)
    && (!w.members[i].envelope.Missing? ==> EnvelopeOf(i) !in foreign)
  }

  /** What was seen of one member, and that it is ours, stays true while the world only moves on. */
  predicate Vetted(pf: Preflight, w: World, i: Id, foreign: set<Resource>, stable: bool)
    requires Shaped(pf)
  {
    MemberSeen(pf, w, i, stable) && OwnedMember(w, i, foreign)
  }

  lemma VettedMore(pf: Preflight, more: Preflight, w: World, after: World, i: Id, foreign: set<Resource>, stable: bool)
    requires Shaped(pf) && Watched(w, after, stable)
    requires forall j: Id | 1 <= j < i :: Vetted(pf, w, j, foreign, stable)
    requires more == pf.(volumes := pf.volumes[i := !after.members[i].data.Absent?], records := pf.records[i := after.members[i].envelope])
    requires OwnedMember(after, i, foreign)
    ensures forall j: Id | 1 <= j < i + 1 :: Vetted(more, after, j, foreign, stable)
    ensures after == w && (forall j | 1 <= j < i :: MemberExact(pf, w, j)) ==> forall j | 1 <= j < i + 1 :: MemberExact(more, after, j)
  {
    forall j | 1 <= j < i + 1 && after == w && (forall j | 1 <= j < i :: MemberExact(pf, w, j)) ensures MemberExact(more, after, j) {
      assert j < i ==> MemberExact(pf, w, j);
    }
    forall j: Id | 1 <= j < i + 1 ensures Vetted(more, after, j, foreign, stable) {
      if j < i {
        assert Vetted(pf, w, j, foreign, stable) && Undisturbed(w, after, j, stable);
      }
    }
  }

  lemma AllVetted(pf: Preflight, w: World, foreign: set<Resource>, stable: bool)
    requires Shaped(pf) && pf.network == w.network && (w.network ==> Network !in foreign)
    requires forall j: Id | 1 <= j < 4 :: Vetted(pf, w, j, foreign, stable)
    ensures Seen(pf, w, stable) && AllOwned(w, foreign)
    ensures (forall j | 1 <= j < 4 :: MemberExact(pf, w, j)) ==> SeenExactly(pf, w)
  {
    assert Vetted(pf, w, 1, foreign, stable) && Vetted(pf, w, 2, foreign, stable) && Vetted(pf, w, 3, foreign, stable);
    if forall j | 1 <= j < 4 :: MemberExact(pf, w, j) {
      assert MemberExact(pf, w, 1) && MemberExact(pf, w, 2) && MemberExact(pf, w, 3);
    }
  }

  method TakePreflight(h: Host, allowPartialVolumes: bool) returns (ok: bool, pf: Preflight)
    requires h.Valid()
    modifies h`w
    ensures h.Valid() && h.OnlyWatched()
    ensures ok ==> h.up && Seen(pf, h.w, h.stable) && AllOwned(h.w, h.foreign)
    ensures ok && !allowPartialVolumes ==> VolumeCount(pf) == 0 || VolumeCount(pf) == 3
    ensures h.reliable && (allowPartialVolumes || VolumesComplete(h.w) || NoVolumes(h.w)) ==> ok
    ensures h.reliable && ok ==> SeenExactly(pf, h.w)
    ensures AllDown(old(h.w)) && ok ==> !pf.records[1].Running? && !pf.records[2].Running? && !pf.records[3].Running?
  {
    ok, pf := InspectAll(h);
    if ok {
      var existing := VolumeCount(pf);
      ok := allowPartialVolumes || existing == 0 || existing == MEMBER_COUNT;
    }
  }

  method InspectAll(h: Host) returns (ok: bool, pf: Preflight)
    requires h.Valid()
    modifies h`w
    ensures h.Valid() && h.OnlyWatched() && Shaped(pf)
    ensures ok ==> h.up && Seen(pf, h.w, h.stable) && AllOwned(h.w, h.foreign)
    ensures h.reliable ==> ok && SeenExactly(pf, h.w)
    ensures AllDown(old(h.w)) ==> !pf.records[1].Running? && !pf.records[2].Running? && !pf.records[3].Running?
  {
    hide KeptWhole, MemberSeen, OwnedMember, Lineal, Vetted, MemberExact, Seen, SeenExactly, AllOwned, Evolved, Watched;
    WatchedNothing(h.w, h.stable);
    pf := NOTHING_SEEN;
    var network;
    ok, network := h.InspectNetwork();
    WatchedStaysDown(old(h.w), h.w, h.stable);
    if !ok {
      return;
    }
    pf := pf.(network := network);
    for i := 1 to 4
      invariant h.Valid() && h.OnlyWatched() && h.up && Shaped(pf)
      invariant pf.network == h.w.network && (h.w.network ==> Network !in h.foreign)
      invariant forall j: Id | 1 <= j < i :: Vetted(pf, h.w, j, h.foreign, h.stable)
      invariant h.reliable ==> forall j | 1 <= j < i :: MemberExact(pf, h.w, j)
      invariant AllDown(old(h.w)) ==> AllDown(h.w) && !pf.records[1].Running? && !pf.records[2].Running? && !pf.records[3].Running?
    {
      ghost var w0, sofar := h.w, pf;
      var volume, record;
      ok, volume, record := InspectMember(h, i);
      WatchedTrans(old(h.w), w0, h.w, h.stable);
      if !ok {
        return;
      }
      pf := pf.(volumes := pf.volumes[i := volume], records := pf.records[i := record]);
      VettedMore(sofar, pf, w0, h.w, i, h.foreign, h.stable);
    }
    AllVetted(pf, h.w, h.foreign, h.stable);
    ok := true;
  }

  lemma WatchedStaysDown(w: World, after: World, stable: bool)
    requires Watched(w, after, stable)
    ensures AllDown(w) ==> AllDown(after)
  {
  }

  method InspectMember(h: Host, i: Id) returns (ok: bool, volume: bool, record: Envelope)
    requires h.Valid()
    modifies h`w
    ensures h.Valid() && h.OnlyWatched()
    ensures ok ==> h.up && volume == !h.w.members[i].data.Absent? && record == h.w.members[i].envelope
    ensures ok ==> OwnedMember(h.w, i, h.foreign)
    ensures h.w.network == old(h.w).network && (AllDown(old(h.w)) ==> AllDown(h.w))
    ensures h.reliable ==> ok
  {
    record := Missing;
    ok, volume := h.InspectVolume(i);
    if ok {
      ghost var w1 := h.w;
      ok, record := h.Inspect(i);
      WatchedTrans(old(h.w), w1, h.w, h.stable);
    }
  }

  // ---- status --------------------------------------------------------------------------------

  predicate OthersReady(s: Status, i: Id) {
    forall j | 1 <= j <= 3 :: j != i ==> Ready(s[j])
  }

  /** One member's status is honest: only a running server answers, and a ready node has a database. */
  predicate Honest(m: MemberState, now: Member, resetting: bool, stable: bool) {
    && EnvelopeDrift(m.runtime, now.envelope, stable)
    && (m.node || m.api ==> m.runtime.Running?)
    && (m.node && !resetting ==> now.data.Lineage?)
  }

  predicate HonestStatus(s: Status, w: World, resetting: bool, stable: bool) {
    forall i | 1 <= i <= 3 :: Honest(s[i], w.members[i], resetting, stable)
  }

  /** Is this member what a fault-free observer calls ready? */
  predicate Healthy(m: Member) {
    m.envelope.Running? && m.envelope.ready && m.data.Lineage?
  }

  predicate ExactStatus(s: Status, w: World) {
    forall i | 1 <= i <= 3 :: s[i].runtime == w.members[i].envelope && (Ready(s[i]) <==> Healthy(w.members[i]))
                              && (s[i].node <==> s[i].api)
  }

  lemma HonestLater(s: Status, i: int, w: World, after: World, resetting: bool, stable: bool)
    requires 1 <= i <= 3
    requires Honest(s[i], w.members[i], resetting, stable) && Watched(w, after, stable)
    requires !resetting ==> !w.helpers[RESET].Running?
    ensures Honest(s[i], after.members[i], resetting, stable)
  {
    assert Undisturbed(w, after, i, stable);
  }

  /** The last status reading showed three running members with node and API ready. */
  ghost predicate AllSeenReady(h: Host)
    reads h
  {
    LastOf(h.readings).Some? && AllReady(LastOf(h.readings).value)
  }

  /** The last status reading showed this of every member but one. */
  ghost predicate OthersSeenReady(h: Host, i: Id)
    reads h
  {
    LastOf(h.readings).Some? && OthersReady(LastOf(h.readings).value, i)
  }

  method ReadStatus(h: Host) returns (ok: bool, s: Status)
    requires h.Valid()
    modifies h`readings, h`w
    ensures h.readings == old(h.readings) + (if ok then [s] else [])
    ensures h.Valid() && h.OnlyWatched()
    ensures ok ==> h.up && h.w.files.config && HonestStatus(s, h.w, old(h.w).helpers[RESET].Running?, h.stable)
    ensures h.reliable && ok ==> ExactStatus(s, h.w)
    ensures h.reliable && h.w.files.config ==> ok
  {
    WatchedNothing(h.w, h.stable);
    s := UNKNOWN;
    if !h.w.files.config || !h.up {
      return false, s;
    }

    ghost var resetting := h.w.helpers[RESET].Running?;
    for i := 1 to 4
      invariant h.Valid() && h.OnlyWatched() && h.up && h.readings == old(h.readings)
      invariant forall j | 1 <= j < i :: Honest(s[j], h.w.members[j], resetting, h.stable)
      invariant h.reliable ==> forall j | 1 <= j < i :: s[j].runtime == h.w.members[j].envelope
                                 && (Ready(s[j]) <==> Healthy(h.w.members[j])) && (s[j].node <==> s[j].api)
    {
      ghost var w0 := h.w;
      var m;
      ok, m := ReadMember(h, i);
      WatchedTrans(old(h.w), w0, h.w, h.stable);
      if !ok {
        return;
      }
      forall j | 1 <= j < i ensures Honest(s[j], h.w.members[j], resetting, h.stable) {
        HonestLater(s, j, w0, h.w, resetting, h.stable);
      }
      s := s[i := m];
    }
    h.readings := h.readings + [s];
    ok := true;
  }

  method ReadMember(h: Host, i: Id) returns (ok: bool, m: MemberState)
    requires h.Valid()
    modifies h`w
    ensures h.Valid() && h.OnlyWatched()
    ensures ok ==> h.up && Honest(m, h.w.members[i], old(h.w).helpers[RESET].Running?, h.stable)
    ensures h.reliable ==> ok && m.runtime == h.w.members[i].envelope && (Ready(m) <==> Healthy(h.w.members[i])) && (m.node <==> m.api)
  {
    m := MemberState(Missing, false, false);
    var e;
    ok, e := h.Inspect(i);
    if !ok {
      return;
    }
    m := m.(runtime := e);
    if e.Running? {
      ghost var w1 := h.w;
      var node, api := h.Probe(i);
      WatchedTrans(old(h.w), w1, h.w, h.stable);
      assert Undisturbed(w1, h.w, i, h.stable);
      // The API answer counts only when the node document could be read.
      var readable: bool := *;
      m := m.(node := node, api := api && (node || readable));
    }
  }

  method CountReady(s: Status) returns (count: nat)
    ensures count == (if s[1].node && s[1].api then 1 else 0) + (if s[2].node && s[2].api then 1 else 0)
                     + (if s[3].node && s[3].api then 1 else 0)
  {
    count := 0;
    for i := 1 to 4
      invariant count == (if i > 1 && s[1].node && s[1].api then 1 else 0) + (if i > 2 && s[2].node && s[2].api then 1 else 0)
                         + (if i > 3 && s[3].node && s[3].api then 1 else 0)
    {
      if s[i].node && s[i].api {
        count := count + 1;
      }
    }
  }

  method AllMembersReady(s: Status) returns (ready: bool)
    ensures ready <==> AllReady(s)
  {
    var count := CountReady(s);
    if count != MEMBER_COUNT {
      return false;
    }
    for i := 1 to 4
      invariant forall j | 1 <= j < i :: Ready(s[j])
    {
      if !s[i].node || !s[i].api || !s[i].runtime.Running? {
        return false;
      }
    }
    return true;
  }

  method OtherMembersReady(s: Status, excluded: Id) returns (ready: bool)
    ensures ready <==> OthersReady(s, excluded)
  {
    var count := 0;
    for i := 1 to 4
      invariant forall j | 1 <= j < i :: j != excluded ==> Ready(s[j])
      invariant count == if excluded < i then i - 2 else i - 1
    {
      if i != excluded {
        if !s[i].node || !s[i].api || !s[i].runtime.Running? {
          return false;
        }
        count := count + 1;
      }
    }
    return count == MEMBER_COUNT - 1;
  }

  method WaitMemberReady(h: Host, i: Id) returns (ok: bool)
    requires h.Valid()
    modifies h`w
    ensures h.Valid() && h.Waited()
    ensures ok ==> h.up && Up(h.w, i) && h.w.members[i].data.Lineage?
    ensures h.reliable && Healthy(h.w.members[i]) ==> ok
  {
    RestedDrifts(h.w, h.stable);
    h.Pause();
    var polls: int := *;
    if h.reliable && polls < 1 {
      polls := 1;
    }
    while polls > 0
      invariant h.Valid() && h.Waited()
      invariant h.reliable && Healthy(h.w.members[i]) ==> polls > 0
    {
      ghost var w0 := h.w;
      var node, api := h.Probe(i);
      WatchedTrans(old(h.w), w0, h.w, h.stable);
      if node {
        return true;
      }
      ghost var w1 := h.w;
      h.Pause();
      WatchedTrans(old(h.w), w1, h.w, h.stable);
      polls := polls - 1;
    }
    return false;
  }

  lemma WatchedStartsNoReset(w: World, after: World, stable: bool)
    requires Watched(w, after, stable)
    ensures after.helpers[RESET].Running? ==> w.helpers[RESET].Running?
    ensures after.files == w.files
  {
    assert HelperUndisturbed(w, after, RESET);
  }

  lemma CountedAreReady(s: Status, w: World, resetting: bool, stable: bool)
    requires HonestStatus(s, w, resetting, stable)
    requires s[1].node && s[1].api && s[2].node && s[2].api && s[3].node && s[3].api
    ensures AllReady(s) && (stable ==> AllUp(w))
    ensures !resetting ==> forall i | 1 <= i <= 3 :: w.members[i].data.Lineage?
  {
    forall i | 1 <= i <= 3 ensures Ready(s[i]) && (stable ==> Up(w, i)) && (!resetting ==> w.members[i].data.Lineage?) {
      assert Honest(s[i], w.members[i], resetting, stable);
    }
  }

  /** Wait until one status reading shows three ready node/API pairs. */
  method WaitClusterReady(h: Host) returns (ok: bool)
    requires h.Valid()
    modifies h`readings, h`w
    ensures h.Valid() && h.Waited()
    ensures ok ==> h.up && AllSeenReady(h)
    ensures ok && !old(h.w).helpers[RESET].Running? ==> forall i | 1 <= i <= 3 :: h.w.members[i].data.Lineage?
    ensures ok && h.stable ==> AllUp(h.w)
    ensures h.reliable && h.w.files.config && (forall i | 1 <= i <= 3 :: Healthy(h.w.members[i])) ==> ok
    ensures h.reliable && ok ==> forall i | 1 <= i <= 3 :: Healthy(h.w.members[i])
  {
    hide KeptWhole, Watched, Evolved, Rested, HonestStatus, Honest, AllReady;
    RestedDrifts(h.w, h.stable);
    h.Pause();
    var polls: int := *;
    if h.reliable && polls < 1 {
      polls := 1;
    }
    while polls > 0
      invariant h.Valid() && h.Waited()
      invariant h.reliable && h.w.files.config && (forall i | 1 <= i <= 3 :: Healthy(h.w.members[i])) ==> polls > 0
    {
      ghost var w0 := h.w;
      var read, s := ReadStatus(h);
      WatchedTrans(old(h.w), w0, h.w, h.stable);
      if read {
        var count := CountReady(s);
        if count == MEMBER_COUNT {
          WatchedStartsNoReset(old(h.w), w0, h.stable);
          CountedAreReady(s, h.w, w0.helpers[RESET].Running?, h.stable);
          return true;
        }
      } else {
        return false;
      }
      ghost var w1 := h.w;
      h.Pause();
      WatchedTrans(old(h.w), w1, h.w, h.stable);
      polls := polls - 1;
    }
    return false;
  }
}
