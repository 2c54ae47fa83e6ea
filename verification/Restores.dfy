/**
The journalled restore: stop everything, reset the seed from the snapshot, start it, empty and
restart each peer, verify, and record the end; with a rollback that depends on how far it got.
 */
module Restores {
  import opened Options
  import opened Journals
  import opened Worlds
  import opened Hosts
  import opened Intents
  import opened Envelopes
  import opened Statuses
  import opened Revivals
  import opened Helpers
  import opened Resets
  import opened Stops

  /** How far one restore call has come; never remembered across calls. */
  datatype Progress = Progress(
    mutationStarted: bool,
    resetAttempted: bool,
    resetComplete: bool,
    newMembers: set<int>,
    cleared: set<int>)

  /** Where the call stands, as far as lineage is concerned. */
  ghost predicate Track(w: World, log: seq<Entry>, call: Call, p: Progress) {
    && Guard(w, log, call)
    && (call.created <==> p.newMembers != {})
    && (call.attempted ==> p.resetAttempted)
    && (p.resetComplete ==> p.resetAttempted && RestoredAt(w, log, call) && p.cleared <= call.cleared)
    && (p.resetAttempted && !p.resetComplete ==> AllDown(w))
    && (!p.resetAttempted && !call.created && !call.mixed ==> Coherent(w))
    && (call.mixed ==> p.newMembers == {})
    && Staged(w, p)
    && (call.finishing ==> p.resetComplete && {2, 3} <= p.cleared && Coherent(w))
  }

  /** The phases before the reset is announced. */
  predicate Early(phase: Phase) {
    phase.Validated? || phase.StoppingMembers?
  }

  /** What the phase on disk says about how far the call has come. */
  ghost predicate Staged(w: World, p: Progress) {
    w.files.journal.Some? ==> Reached(w, w.files.journal.value.phase, p)
  }

  ghost predicate Reached(w: World, phase: Phase, p: Progress) {
    && (Early(phase) ==> !p.resetAttempted)
    && (phase.Verifying? ==> p.resetComplete && {2, 3} <= p.cleared && Coherent(w))
  }

  ghost predicate OnTrack(h: Host, p: Progress)
    reads h
  {
    !h.call.strayed && Track(h.w, h.log, h.call, p)
  }

  /** On its track, unless it has strayed. */
  ghost predicate Steady(h: Host, p: Progress)
    reads h
  {
    !h.call.strayed ==> OnTrack(h, p)
  }

  /** Neither waiting nor writing other files moves the call off its track. */
  lemma TrackSurvives(w: World, after: World, log: seq<Entry>, call: Call, p: Progress)
    requires Track(w, log, call, p) && Lineal(w, after) && after.lost == w.lost
    requires Mountable(w) ==> Mountable(after)
    requires (Blocking(after.files.journal) || call.finishing) && after.files.journal == w.files.journal
    ensures Track(after, log, call, p)
  {
  }

  /** The journal stays closed while other files, intent, journal or kubeconfig are written. */
  lemma TrackFiles(w: World, after: World, log: seq<Entry>, call: Call, p: Progress)
    requires Track(w, log, call, p)
    requires after == w.(files := after.files) && after.files.staging == w.files.staging
    requires Blocking(after.files.journal) || call.finishing
    requires after.files.journal == w.files.journal || Staged(w.(files := after.files), p)
    ensures Track(after, log, call, p)
  {
    hide AllSound, Blocking;
  }

  /** Network, volumes and the files other than intent, journal and kubeconfig are left alone. */
  predicate SameGround(w: World, after: World) {
    && after.network == w.network && after.lost == w.lost
    && after.files == w.files.(desired := after.files.desired, journal := after.files.journal, kubeconfig := after.files.kubeconfig)
    && (ReadableIntent(w.files) ==> ReadableIntent(after.files))
    && (w.helpers[SNAPSHOT].Missing? ==> after.helpers[SNAPSHOT].Missing?)
    && (w.members[1].data.Absent? <==> after.members[1].data.Absent?)
    && (w.members[2].data.Absent? <==> after.members[2].data.Absent?)
    && (w.members[3].data.Absent? <==> after.members[3].data.Absent?)
  }

  lemma EvolvedIsSameGround(w: World, after: World, t: set<int>, helpers: set<int>, stable: bool)
    requires Evolved(w, after, t, helpers, stable) && SNAPSHOT !in helpers
    ensures SameGround(w, after) && after.files == w.files
  {
    assert HelperUndisturbed(w, after, SNAPSHOT);
  }

  lemma SameGroundNothing(w: World)
    ensures SameGround(w, w)
  {
  }

  lemma SameGroundTrans(a: World, b: World, c: World)
    requires SameGround(a, b) && SameGround(b, c)
    ensures SameGround(a, c)
  {
  }

  lemma SameGroundJournal(a: World, b: World, c: World)
    requires SameGround(a, b) && c == b.(files := b.files.(journal := c.files.journal))
    ensures SameGround(a, c)
  {
  }

  /** The journal on disk belongs to this call and has not ended: one of its phases, or the next. */
  predicate InFlight(file: Option<Journal>, base: Journal) {
    && file.Some?
    && file.value == base.(phase := file.value.phase)
    && !Terminal(file.value.phase) && !file.value.phase.Unrecognised?
  }

  /** A journal as a call begins it. */
  predicate FreshJournal(base: Journal) {
    !base.attempted && !base.succeeded && !base.completedAt
  }

  lemma InFlightBlocks(file: Option<Journal>, base: Journal)
    requires InFlight(file, base) && FreshJournal(base)
    ensures Blocking(file)
  {
  }

  function Completion(base: Journal): (r: Journal) {
    base.(phase := Completed, succeeded := true, completedAt := true)
  }

  /** Save a journal of this call that is not its last. */
  method SaveJournal(h: Host, j: Journal) returns (ok: bool)
    requires h.Valid() && !j.phase.Completed?
    modifies h`w, h`up, h`call
    ensures h.Valid() && (h.up ==> old(h.up)) && (ok ==> h.up) && (h.reliable ==> ok)
    ensures h.w == old(h.w) || h.w == Journaled(old(h.w), j)
    ensures ok ==> h.w == Journaled(old(h.w), j)
    ensures h.call == old(h.call).(vouched := if RuntimeSafe(j) then LastOf(h.readings) else old(h.call).vouched)
  {
    ok := h.Write(PutJournal(j));
  }

  function Journaled(w: World, j: Journal): (r: World) {
    w.(files := w.files.(journal := Some(j)))
  }

  /** Durably enter the next phase. */
  method UpdatePhase(h: Host, base: Journal, phase: Phase, ghost p: Progress) returns (ok: bool)
    requires h.Valid() && FreshJournal(base) && InFlight(h.w.files.journal, base) && OnTrack(h, p)
    requires !Terminal(phase) && !phase.Unrecognised? && Reached(h.w, phase, p)
    modifies h`w, h`up, h`call
    ensures h.Valid() && (h.up ==> old(h.up)) && (ok ==> h.up) && h.call == old(h.call)
    ensures h.w == old(h.w).(files := old(h.w).files.(journal := h.w.files.journal))
    ensures InFlight(h.w.files.journal, base) && OnTrack(h, p)
    ensures ok ==> h.w.files.journal == Some(base.(phase := phase))
    ensures h.reliable ==> ok
  {
    hide Track, Blocking, KeptWhole, Reached, Coherent, FreshJournal, Trusted, RuntimeSafe, InFlight, Terminal, Journaled;
    var next := base.(phase := phase);
    PhaseStaysOnTrack(h.w, h.w, h.log, h.call, base, phase, p);
    ok := SaveJournal(h, next);
    PhaseStaysOnTrack(old(h.w), h.w, h.log, h.call, base, phase, p);
  }

  lemma PhaseStaysOnTrack(w: World, after: World, log: seq<Entry>, call: Call, base: Journal, phase: Phase, p: Progress)
    requires Track(w, log, call, p) && FreshJournal(base) && !Terminal(phase) && !phase.Unrecognised? && Reached(w, phase, p)
    requires InFlight(w.files.journal, base) && (after == w || after == Journaled(w, base.(phase := phase)))
    ensures Track(after, log, call, p) && InFlight(after.files.journal, base)
    ensures after == w.(files := w.files.(journal := after.files.journal))
    ensures after == Journaled(w, base.(phase := phase)) ==> after.files.journal == Some(base.(phase := phase))
    ensures !RuntimeSafe(base.(phase := phase)) && !phase.Completed?
  {
    var next := Journaled(w, base.(phase := phase));
    InFlightBlocks(next.files.journal, base);
    assert Reached(next, phase, p);
    TrackFiles(w, next, log, call, p);
  }

  /** Write the kubeconfig the seed hands out. */
  method RefreshKubeconfig(h: Host, ghost p: Progress) returns (ok: bool)
    requires h.Valid() && Steady(h, p)
    modifies h`w, h`up, h`call
    ensures h.Valid() && (h.up ==> old(h.up)) && (ok ==> h.up) && h.call == old(h.call)
    ensures h.w == old(h.w).(files := old(h.w).files.(kubeconfig := h.w.files.kubeconfig))
    ensures Steady(h, p)
    ensures ok ==> h.w.files.kubeconfig
    ensures h.reliable && Up(h.w, SEED) ==> ok
  {
    hide KeptWhole;
    hide Track;
    var readable: bool := *;
    ok := h.up && Up(h.w, SEED) && (readable || h.reliable);
    if ok {
      ok := SaveKubeconfig(h);
      if !h.call.strayed {
        KubeconfigStaysOnTrack(old(h.w), h.w, h.log, h.call, p);
      }
    }
  }

  method SaveKubeconfig(h: Host) returns (ok: bool)
    requires h.Valid()
    modifies h`w, h`up, h`call
    ensures h.Valid() && (h.up ==> old(h.up)) && (ok ==> h.up) && (h.reliable ==> ok) && h.call == old(h.call)
    ensures h.w == old(h.w).(files := old(h.w).files.(kubeconfig := h.w.files.kubeconfig))
    ensures ok ==> h.w.files.kubeconfig
  {
    ok := h.Write(PutKubeconfig);
  }

  lemma KubeconfigStaysOnTrack(w: World, after: World, log: seq<Entry>, call: Call, p: Progress)
    requires Track(w, log, call, p) && after == w.(files := w.files.(kubeconfig := after.files.kubeconfig))
    ensures Track(after, log, call, p)
  {
    TrackFiles(w, after, log, call, p);
  }

  /** Wait for three ready members without leaving the track. */
  method AwaitCluster(h: Host, ghost p: Progress) returns (ok: bool)
    requires h.Valid() && Steady(h, p)
    modifies h`readings, h`w
    ensures h.Valid() && h.Waited() && Steady(h, p)
    ensures ok ==> h.up && AllSeenReady(h)
    ensures ok && p.resetComplete && {2, 3} <= p.cleared && !h.call.strayed ==> Coherent(h.w)
    ensures ok && h.stable ==> AllUp(h.w)
    ensures h.reliable && h.w.files.config && (forall i | 1 <= i <= 3 :: Healthy(h.w.members[i])) ==> ok
  {
    hide AllReady, OthersReady, Rested;
    ok := WaitClusterReady(h);
    if !h.call.strayed {
      TrackSurvives(old(h.w), h.w, h.log, h.call, p);
      if ok && p.resetComplete && {2, 3} <= p.cleared {
        assert 2 in p.cleared && 3 in p.cleared;
      }
    }
  }

  /** A member that is ready, or is down over a database it can serve or can fetch from the running seed. */
  predicate Bringable(w: World, i: Id) {
    if Up(w, i) then Lively(w.members[i])
    else Supplied(w, i)
  }

  lemma BringableIsHealthy(w: World, stableIP: seq<nat>, i: Id)
    requires |stableIP| == 4
    ensures w.network && !w.members[i].data.Absent? && Bringable(w, i) ==> Healthy(StartedWorld(w, stableIP, i).members[i])
  {
    assert w.members[i].data.Blank? && !Up(w, i) && i != SEED
           ==> MayJoin(SetEnvelope(w, i, Missing), i, w.members[SEED].data) == MayJoin(w, i, w.members[SEED].data);
  }

  /** Start a member and wait for its node to be ready. */
  method StartAndWait(h: Host, i: Id) returns (ok: bool)
    requires h.Valid()
    modifies h`w, h`up, h`log
    ensures h.Valid() && (h.up ==> old(h.up)) && (ok ==> h.up) && h.call == old(h.call)
    ensures Evolved(old(h.w), h.w, {i}, {}, h.stable)
    ensures old(h.Guarded() && h.Startable()) && Licensed(h.call, i) ==> h.Guarded() && h.Startable()
    ensures (Coherent(old(h.w)) ==> Coherent(h.w)) && LineagesKept(old(h.w), h.w, 0)
    ensures ok ==> h.w.members[i].data.Lineage?
    ensures h.stable && Up(old(h.w), i) ==> Up(h.w, i) && h.log == old(h.log)
    ensures h.reliable && h.w.network && !old(h.w).members[i].data.Absent? && AddressesFree(old(h.w), h.stableIP)
            && Bringable(old(h.w), i)
            ==> ok && h.w == StartedWorld(old(h.w), h.stableIP, i)
  {
    hide Rested, LaunchedWorld, Guard, MayStart, Coherent, AddressesFree, KeptWhole, LineagesKept;
    BringableIsHealthy(h.w, h.stableIP, i);
    ok := StartForRecovery(h, i);
    if !ok {
      return;
    }

    ghost var w1 := h.w;
    ok := WaitMemberReady(h, i);
    WatchedKeeps(w1, h.w, h.log, h.call, h.stable);
    LinealKeepsLineages(w1, h.w);
    LineagesKeptTrans(old(h.w), w1, h.w, 0);
    EvolvedTrans(old(h.w), w1, h.w, {i}, {}, {}, {}, h.stable);
    assert Undisturbed(w1, h.w, i, h.stable);
  }

  /** After a confirmed reset: start the seed, or a peer that was emptied. */
  method StartRestored(h: Host, i: Id, ghost p: Progress) returns (ok: bool)
    requires h.Valid() && OnTrack(h, p) && p.resetComplete && (i == SEED || i in p.cleared)
    modifies h`w, h`up, h`log
    ensures h.Valid() && (h.up ==> old(h.up)) && (ok ==> h.up) && h.call == old(h.call) && OnTrack(h, p)
    ensures Evolved(old(h.w), h.w, {i}, {}, h.stable) && LineagesKept(old(h.w), h.w, 0)
    ensures ok ==> h.w.members[i].data.Lineage?
    ensures h.stable && Up(old(h.w), i) ==> Up(h.w, i) && h.log == old(h.log)
    ensures h.reliable && h.w.network && !old(h.w).members[i].data.Absent? && AddressesFree(old(h.w), h.stableIP)
            && Bringable(old(h.w), i)
            ==> ok && h.w == StartedWorld(old(h.w), h.stableIP, i)
  {
    hide Coherent, Rejoining, Sound, OneLineage, Confined, Blocking;
    ok := StartAndWait(h, i);
  }

  /** What every stretch of a restore leaves alone, and the open journal it runs under. */
  twostate predicate RestoreWork(h: Host, base: Journal)
    reads h
  {
    && (h.up ==> old(h.up))
    && SameGround(old(h.w), h.w)
    && h.call.created == old(h.call.created) && h.call.finishing == old(h.call.finishing) && h.call.mixed == old(h.call.mixed)
    && InFlight(h.w.files.journal, base)
  }

  // ---- the forward path ---------------------------------------------------------------------

  /** Everything is down: announce the reset and remove the seed's envelope. */
  method RemoveSeedEnvelope(h: Host, base: Journal, p: Progress) returns (ok: bool)
    requires h.Valid() && OnTrack(h, p) && AllDown(h.w) && !p.resetComplete
    requires FreshJournal(base) && InFlight(h.w.files.journal, base)
    modifies h`w, h`up, h`log, h`call
    ensures h.Valid() && (ok ==> h.up) && RestoreWork(h, base) && h.call == old(h.call)
    ensures h.Guarded() && AllDown(h.w) && (Coherent(old(h.w)) ==> Coherent(h.w)) && Staged(h.w, p)
    ensures ok ==> h.w.files.journal == Some(base.(phase := ResettingSeed))
    ensures h.w.files.staging == old(h.w).files.staging
    ensures h.reliable ==> ok && h.w == SetEnvelope(old(h.w), SEED, Missing).(files := h.w.files)
                           && h.w.files == old(h.w).files.(journal := h.w.files.journal)
  {
    hide Discipline, Rejoining, InFlight, Blocking, Confined, FreshJournal;
    ok := UpdatePhase(h, base, ResettingSeed, p);
    if ok {
      ghost var w1 := h.w;
      ok := DeleteStopped(h, SEED);
      EvolvedIsSameGround(w1, h.w, {SEED}, {}, h.stable);
    }
  }

  /** Reset the seed's volume from the snapshot. */
  method ResetPhase(h: Host, base: Journal, progress: Progress) returns (ok: bool, p: Progress)
    requires h.Valid() && !h.pledged && OnTrack(h, progress) && AllDown(h.w)
    requires !progress.resetAttempted && !progress.resetComplete && progress.cleared == {} && h.call.cleared == {}
    requires FreshJournal(base) && InFlight(h.w.files.journal, base) && h.w.files.staging.CompleteStage?
    modifies h`w, h`up, h`log, h`call
    ensures h.Valid() && (ok ==> h.up) && RestoreWork(h, base) && h.call.cleared == {}
    ensures OnTrack(h, p) && p == progress.(resetAttempted := p.resetAttempted, resetComplete := ok)
    ensures h.reliable && h.w.network && !old(h.w).members[SEED].data.Absent? && old(h.w).helpers[RESET].Missing?
            ==> ok && SeedReset(old(h.w), h.w)
    ensures ok ==> h.w.files.journal == Some(base.(phase := ResettingSeed))
  {
    hide KeptWhole, SameGround, Track, AllDown, InFlight, Possible, Guard, Coherent, Staged, ResetWorld, SeedReset;
    p := progress;
    ok := RemoveSeedEnvelope(h, base, p);
    ghost var w1, l1, call1 := h.w, h.log, h.call;
    if !ok {
      RemovedIsOnTrack(old(h.w), old(h.log), w1, l1, call1, p);
      return;
    }
    p := p.(resetAttempted := true);
    ok := ResetVolume(h, base);
    SameGroundTrans(old(h.w), w1, h.w);
    p := p.(resetComplete := ok);
    ResetIsOnTrack(old(h.w), old(h.log), old(h.call), progress, h.w, h.log, h.call, p);
    RemovedThenReset(old(h.w), w1, h.w);
  }

  lemma RemovedIsOnTrack(w: World, log: seq<Entry>, after: World, now: seq<Entry>, call: Call, p: Progress)
    requires Track(w, log, call, p) && !p.resetAttempted && !p.resetComplete
    requires Guard(after, now, call) && Staged(after, p) && (Coherent(w) ==> Coherent(after))
    ensures Track(after, now, call, p)
  {
    hide Guard, Coherent, AllDown;
  }

  lemma RemovedThenReset(w: World, mid: World, after: World)
    ensures mid == SetEnvelope(w, SEED, Missing).(files := mid.files) && mid.files == w.files.(journal := mid.files.journal)
            && w.network && !w.members[SEED].data.Absent? && w.helpers[RESET].Missing?
            ==> Possible(mid, RunReset) && (after == ResetWorld(mid) ==> SeedReset(w, after))
  {
    assert w.helpers[RESET].Missing? ==> w.helpers[RESET := Missing] == w.helpers;
  }

  /** The seed's envelope is gone and the reset announced: run it. */
  method ResetVolume(h: Host, base: Journal) returns (ok: bool)
    requires h.Valid() && !h.pledged && h.Guarded() && AllDown(h.w) && h.w.files.staging.CompleteStage?
    modifies h`w, h`up, h`log, h`call
    ensures h.Valid() && (h.up ==> old(h.up)) && (ok ==> h.up)
    ensures SameGround(old(h.w), h.w) && h.w.files == old(h.w).files
    ensures h.Guarded() && AllDown(h.w) && h.call == old(h.call).(attempted := h.call.attempted, confirmed := h.call.confirmed)
    ensures ok ==> h.call.attempted && h.call.confirmed && h.w.members[SEED].data.Lineage? && h.w.helpers[RESET].Missing?
    ensures h.reliable && Possible(old(h.w), RunReset) ==> ok && h.w == ResetWorld(old(h.w))
  {
    hide KeptWhole, Possible, Guard;
    ok := ResetSeed(h);
    EvolvedIsSameGround(old(h.w), h.w, {}, {RESET}, h.stable);
  }

  lemma ResetIsOnTrack(w: World, log: seq<Entry>, call: Call, was: Progress, after: World, now: seq<Entry>, later: Call, p: Progress)
    requires Track(w, log, call, was) && !was.resetComplete && call.cleared == was.cleared == {}
    requires later == call.(attempted := later.attempted, confirmed := later.confirmed)
    requires p == was.(resetAttempted := true, resetComplete := p.resetComplete)
    requires Guard(after, now, later) && AllDown(after)
    requires after.files.journal.Some? && after.files.journal.value.phase.ResettingSeed?
    requires p.resetComplete ==> later.attempted && later.confirmed && after.members[SEED].data.Lineage? && after.helpers[RESET].Missing?
    ensures Track(after, now, later, p)
  {
    hide Guard, Coherent;
  }

  predicate SeedReset(w: World, after: World) {
    && after == w.(members := after.members, nextCluster := after.nextCluster, files := after.files)
    && after.members[SEED] == Member(Missing, Lineage(w.nextCluster))
    && after.members[2] == w.members[2] && after.members[3] == w.members[3]
    && after.files == w.files.(journal := after.files.journal)
  }

  /** A fault-free restore that has the first `n` members running the cluster `c`, the others down. */
  ghost predicate SmoothAt(w: World, stableIP: seq<nat>, n: int, c: nat)
    requires |stableIP| == 4
  {
    && w.network && w.files.config && NoHelpers(w) && VolumesComplete(w) && AddressesFree(w, stableIP)
    && (forall i | 1 <= i <= 3 && i <= n :: Healthy(w.members[i]) && w.members[i].data == Lineage(c))
    && (forall i | 1 <= i <= 3 && i > n :: !w.members[i].envelope.Running?)
  }

  lemma SmoothStart(w: World, stableIP: seq<nat>, i: Id, c: nat)
    requires |stableIP| == 4 && forall j, k | 1 <= j < k <= 3 :: stableIP[j] != stableIP[k]
    requires SmoothAt(w, stableIP, i - 1, c)
    requires w.members[i].data == Lineage(c) || (i > 1 && w.members[i].data.Blank?)
    ensures SmoothAt(StartedWorld(w, stableIP, i), stableIP, i, c)
  {
    var launched := LaunchedWorld(w, stableIP, i);
    var after := StartedWorld(w, stableIP, i);
    forall j | 1 <= j <= 3 ensures Up(after, j) ==> !Collides(stableIP, j, after.members[j].envelope.address) {
      if j != i {
        assert launched.members[j] == w.members[j] && after.members[j] == RestedMember(w.members[j]);
      }
    }
  }

  /** With every running member ready, waiting brings nothing new. */
  lemma SmoothRests(w: World, stableIP: seq<nat>, n: int, c: nat)
    requires |stableIP| == 4
    ensures SmoothAt(w, stableIP, n, c) ==> Rested(w) == w
  {
    if SmoothAt(w, stableIP, n, c) {
      assert Rested(w).members == w.members;
    }
  }

  lemma SmoothFiles(w: World, after: World, stableIP: seq<nat>, n: int, c: nat)
    requires |stableIP| == 4 && SmoothAt(w, stableIP, n, c)
    requires after == w.(files := after.files) && after.files.config
    ensures SmoothAt(after, stableIP, n, c)
  {
  }

  method StartSeedPhase(h: Host, base: Journal, p: Progress, ghost c: nat) returns (ok: bool)
    requires h.Valid() && OnTrack(h, p) && p.resetComplete
    requires FreshJournal(base) && InFlight(h.w.files.journal, base)
    modifies h`w, h`up, h`log, h`call
    ensures h.Valid() && (ok ==> h.up) && RestoreWork(h, base) && h.call == old(h.call) && OnTrack(h, p)
    ensures h.reliable && SmoothAt(old(h.w), h.stableIP, 0, c) && old(h.w).members[SEED].data == Lineage(c)
            ==> ok && SmoothAt(h.w, h.stableIP, 1, c) && h.w.files == old(h.w).files.(journal := h.w.files.journal)
    ensures LineagesKept(old(h.w), h.w, 0) && (ok ==> h.w.files.journal == Some(base.(phase := StartingSeed)))
  {
    hide Track, InFlight, FreshJournal;
    ok := UpdatePhase(h, base, StartingSeed, p);
    if !ok {
      return;
    }

    ghost var w1 := h.w;
    ok := StartRestored(h, SEED, p);
    EvolvedIsSameGround(w1, h.w, {SEED}, {}, h.stable);
    if h.reliable && SmoothAt(old(h.w), h.stableIP, 0, c) && old(h.w).members[SEED].data == Lineage(c) {
      SmoothFiles(old(h.w), w1, h.stableIP, 0, c);
      SmoothStart(w1, h.stableIP, SEED, c);
    }
  }

  /** Empty one peer and bring it back into the restored cluster. */
  method RejoinPeer(h: Host, i: Id, progress: Progress, ghost c: nat) returns (ok: bool, p: Progress)
    requires h.Valid() && !h.pledged && OnTrack(h, progress) && progress.resetComplete && i != SEED && i !in progress.cleared
    modifies h`w, h`up, h`log, h`call
    ensures h.Valid() && (ok ==> h.up) && (h.up ==> old(h.up))
    ensures Evolved(old(h.w), h.w, {i}, {i}, h.stable) && LineagesKept(old(h.w), h.w, i)
    ensures ok ==> h.w.members[i].data.Lineage?
    ensures h.call == old(h.call).(cleared := h.call.cleared)
    ensures OnTrack(h, p) && p == progress.(cleared := p.cleared) && progress.cleared <= p.cleared <= progress.cleared + {i}
    ensures ok ==> i in p.cleared
    ensures h.reliable && SmoothAt(old(h.w), h.stableIP, i - 1, c) ==> ok && SmoothAt(h.w, h.stableIP, i, c)
  {
    p := progress;
    ok := ClearPeer(h, i);
    assert progress.cleared <= h.call.cleared by {
      assert progress.cleared <= old(h.call.cleared) - {i};
    }
    if !ok {
      return;
    }
    p := p.(cleared := p.cleared + {i});
    ghost var w1 := h.w;
    ok := StartRestored(h, i, p);
    EvolvedTrans(old(h.w), w1, h.w, {i}, {i}, {i}, {}, h.stable);
    assert {i} + {i} == {i} && {i} + {} == {i};
    if h.reliable && SmoothAt(old(h.w), h.stableIP, i - 1, c) {
      SmoothClear(old(h.w), h.stableIP, i, c);
      SmoothStart(w1, h.stableIP, i, c);
    }
  }

  lemma SmoothClear(w: World, stableIP: seq<nat>, i: Id, c: nat)
    requires |stableIP| == 4 && SmoothAt(w, stableIP, i - 1, c) && i != SEED
    ensures SmoothAt(SetData(SetEnvelope(w, i, Missing), i, Blank), stableIP, i - 1, c)
  {
    var after := SetData(SetEnvelope(w, i, Missing), i, Blank);
    forall j | 1 <= j <= 3 ensures Up(after, j) ==> !Collides(stableIP, j, after.members[j].envelope.address) {
      if j != i {
        assert after.members[j] == w.members[j];
      }
    }
  }

  method RejoinPhase(h: Host, base: Journal, progress: Progress, ghost c: nat) returns (ok: bool, p: Progress)
    requires h.Valid() && !h.pledged && OnTrack(h, progress) && progress.resetComplete && progress.cleared == {}
    requires FreshJournal(base) && InFlight(h.w.files.journal, base)
    modifies h`w, h`up, h`log, h`call
    ensures h.Valid() && (ok ==> h.up) && RestoreWork(h, base)
    ensures OnTrack(h, p) && p == progress.(cleared := p.cleared)
    ensures ok ==> p.cleared == {2, 3} && Coherent(h.w)
    ensures h.reliable && SmoothAt(old(h.w), h.stableIP, 1, c) ==> ok && SmoothAt(h.w, h.stableIP, 3, c)
  {
    hide Track, InFlight, FreshJournal, Evolved, KeptWhole, Coherent;
    p := progress;
    ok := UpdatePhase(h, base, RejoiningPeers, p);
    if ok {
      if h.reliable && SmoothAt(old(h.w), h.stableIP, 1, c) {
        SmoothFiles(old(h.w), h.w, h.stableIP, 1, c);
      }
      ok, p := RejoinPeers(h, base, p, c);
    }
  }

  method RejoinPeers(h: Host, base: Journal, progress: Progress, ghost c: nat) returns (ok: bool, p: Progress)
    requires h.Valid() && !h.pledged && OnTrack(h, progress) && progress.resetComplete && progress.cleared == {}
    requires InFlight(h.w.files.journal, base)
    modifies h`w, h`up, h`log, h`call
    ensures h.Valid() && (ok ==> h.up) && RestoreWork(h, base)
    ensures OnTrack(h, p) && p == progress.(cleared := p.cleared)
    ensures ok ==> p.cleared == {2, 3} && Coherent(h.w)
    ensures h.reliable && SmoothAt(old(h.w), h.stableIP, 1, c) ==> ok && SmoothAt(h.w, h.stableIP, 3, c)
  {
    hide Track, SmoothAt, InFlight, Evolved, SameGround, Coherent, KeptWhole;
    SameGroundNothing(h.w);
    p := progress;
    ok := true;
    var i := 2;
    while i <= MEMBER_COUNT && ok
      invariant 2 <= i <= 4
      invariant h.Valid() && RestoreWork(h, base) && OnTrack(h, p)
      invariant p == progress.(cleared := p.cleared) && (ok ==> p.cleared == Peers(i))
      invariant i > 2 && ok ==> h.up
      invariant ok ==> (i > 2 ==> h.w.members[2].data.Lineage?) && (i > 3 ==> h.w.members[3].data.Lineage?)
      invariant h.reliable && SmoothAt(old(h.w), h.stableIP, 1, c) ==> ok && SmoothAt(h.w, h.stableIP, i - 1, c)
    {
      ghost var w1 := h.w;
      RestoredIsSettled(h.w, h.log, h.call, p);
      ok, p := RejoinPeer(h, i, p, c);
      EvolvedIsSameGround(w1, h.w, {i}, {i}, h.stable);
      SameGroundTrans(old(h.w), w1, h.w);
      i := i + 1;
    }
    RestoredIsSettled(h.w, h.log, h.call, p);
  }

  /** After a confirmed reset no reset is at work any more, and peers that rejoined share the seed's cluster. */
  lemma RestoredIsSettled(w: World, log: seq<Entry>, call: Call, p: Progress)
    requires Track(w, log, call, p) && p.resetComplete
    ensures !w.helpers[RESET].Running?
    ensures p.cleared == {2, 3} && w.members[2].data.Lineage? && w.members[3].data.Lineage? ==> Coherent(w)
  {
    if p.cleared == {2, 3} {
      assert 2 in call.cleared && 3 in call.cleared;
    }
  }

  function Peers(below: int): (r: set<int>) {
    if below <= 2 then {} else if below == 3 then {2} else {2, 3}
  }

  /** All peers rejoined: refresh the kubeconfig and see three ready members at once. */
  method VerifyPhase(h: Host, base: Journal, p: Progress, ghost c: nat) returns (ok: bool)
    requires h.Valid() && OnTrack(h, p) && p.resetComplete && p.cleared == {2, 3} && Coherent(h.w)
    requires FreshJournal(base) && InFlight(h.w.files.journal, base)
    modifies h`readings, h`w, h`up, h`log, h`call
    ensures h.Valid() && (ok ==> h.up) && RestoreWork(h, base) && OnTrack(h, p) && h.call == old(h.call)
    ensures ok ==> Coherent(h.w) && h.w.files.kubeconfig && AllSeenReady(h)
    ensures ok && h.stable ==> AllUp(h.w)
    ensures h.reliable && SmoothAt(old(h.w), h.stableIP, 3, c) ==> ok && SmoothAt(h.w, h.stableIP, 3, c)
  {
    assert Reached(h.w, Verifying, p);
    hide KeptWhole, Reached;
    hide Track, Coherent, InFlight, FreshJournal, AllUp;
    ok := UpdatePhase(h, base, Verifying, p);
    if !ok {
      return;
    }
    ok := RefreshKubeconfig(h, p);
    if !ok {
      return;
    }

    ghost var w1 := h.w;
    ok := AwaitCluster(h, p);
    EvolvedIsSameGround(w1, h.w, {}, {}, h.stable);
    if h.reliable && SmoothAt(old(h.w), h.stableIP, 3, c) {
      SmoothFiles(old(h.w), w1, h.stableIP, 3, c);
      SmoothRests(w1, h.stableIP, 3, c);
    }
  }

  /** The journal that ends a call, and the worlds it may describe. */
  predicate Concluded(w: World, base: Journal) {
    w.files.journal == Some(Completion(base)) && Coherent(w)
  }

  method RecordCompletion(h: Host, base: Journal, p: Progress) returns (ok: bool)
    requires h.Valid() && OnTrack(h, p) && p.resetComplete && p.cleared == {2, 3} && Coherent(h.w)
    requires FreshJournal(base) && InFlight(h.w.files.journal, base)
    modifies h`w, h`up, h`call
    ensures h.Valid() && (ok ==> h.up) && (h.up ==> old(h.up))
    ensures h.w == old(h.w).(files := old(h.w).files.(journal := h.w.files.journal))
    ensures h.call == old(h.call).(finishing := true, vouched := LastOf(h.readings))
    ensures OnTrack(h, p)
    ensures InFlight(h.w.files.journal, base) || Concluded(h.w, base)
    ensures ok ==> Concluded(h.w, base)
    ensures h.reliable ==> ok
  {
    ok := h.Write(PutJournal(Completion(base)));
  }

  /** What a fault-free call starts from, once its journal is open. */
  ghost predicate Prepared(w: World) {
    && w.network && w.files.config && w.files.staging.CompleteStage?
    && NoHelpers(w) && VolumesComplete(w)
  }

  /** The first three phases: stop everything, reset the seed, run it. */
  method RestoreSeed(h: Host, base: Journal, pf: Preflight, progress: Progress, ghost c: nat) returns (ok: bool, p: Progress)
    requires h.Valid() && !h.pledged && OnTrack(h, progress) && Seen(pf, h.w, h.stable) && h.w.files.staging.CompleteStage?
    requires !progress.resetAttempted && !progress.resetComplete && progress.cleared == {} && h.call.cleared == {}
    requires FreshJournal(base) && InFlight(h.w.files.journal, base)
    modifies h`w, h`up, h`log, h`call
    ensures h.Valid() && (ok ==> h.up) && RestoreWork(h, base) && OnTrack(h, p)
    ensures p == progress.(resetAttempted := p.resetAttempted, resetComplete := p.resetComplete)
    ensures ok ==> p.resetComplete
    ensures h.reliable && Prepared(old(h.w)) && SeenExactly(pf, old(h.w)) && c == old(h.w).nextCluster
            ==> ok && SmoothAt(h.w, h.stableIP, 1, c)
  {
    hide Track, SmoothAt, InFlight;
    p := progress;
    ok := StopForRestore(h, base, pf, p);
    if ok {
      ok, p := ResetAndStart(h, base, p, c);
    }
  }

  method ResetAndStart(h: Host, base: Journal, progress: Progress, ghost c: nat) returns (ok: bool, p: Progress)
    requires h.Valid() && !h.pledged && OnTrack(h, progress) && AllDown(h.w) && h.w.files.staging.CompleteStage?
    requires !progress.resetAttempted && !progress.resetComplete && progress.cleared == {} && h.call.cleared == {}
    requires FreshJournal(base) && InFlight(h.w.files.journal, base)
    modifies h`w, h`up, h`log, h`call
    ensures h.Valid() && (ok ==> h.up) && RestoreWork(h, base) && OnTrack(h, p)
    ensures p == progress.(resetAttempted := p.resetAttempted, resetComplete := p.resetComplete)
    ensures ok ==> p.resetComplete
    ensures h.reliable && Prepared(old(h.w)) && c == old(h.w).nextCluster ==> ok && SmoothAt(h.w, h.stableIP, 1, c)
  {
    ok, p := ResetPhase(h, base, progress);
    if ok {
      if h.reliable && Prepared(old(h.w)) && c == old(h.w).nextCluster {
        SmoothReset(old(h.w), h.w, h.stableIP, c);
      }
      hide Track, SmoothAt, InFlight, SeedReset;
      ok := StartSeedPhase(h, base, p, c);
    }
  }

  method StopForRestore(h: Host, base: Journal, pf: Preflight, ghost p: Progress) returns (ok: bool)
    requires h.Valid() && OnTrack(h, p) && Seen(pf, h.w, h.stable) && InFlight(h.w.files.journal, base)
    requires FreshJournal(base) && !p.resetAttempted
    modifies h`w, h`up, h`log
    ensures h.Valid() && RestoreWork(h, base) && OnTrack(h, p) && h.call == old(h.call)
    ensures ok ==> AllDown(h.w)
    ensures h.reliable && SeenExactly(pf, old(h.w)) ==> ok && OnlyStopped(old(h.w), h.w)
  {
    hide Sound, OneLineage, Coherent, Rejoining, Seen, SeenExactly, OnlyStopped, OnlyStops;
    ok := StopRecorded(h, pf);
    EvolvedIsSameGround(old(h.w), h.w, {1, 2, 3}, {}, h.stable);
    InFlightBlocks(h.w.files.journal, base);
  }

  lemma SmoothReset(w: World, after: World, stableIP: seq<nat>, c: nat)
    requires |stableIP| == 4
    requires Prepared(w) && AllDown(w) && SeedReset(w, after) && c == w.nextCluster
    ensures SmoothAt(after, stableIP, 0, c) && after.members[SEED].data == Lineage(c)
  {
  }

  /** The last three phases: rejoin the peers, verify, record the end. */
  method RestorePeers(h: Host, base: Journal, progress: Progress, ghost c: nat) returns (ok: bool, p: Progress, stamped: bool)
    requires h.Valid() && !h.pledged && OnTrack(h, progress) && progress.resetComplete && progress.cleared == {}
    requires FreshJournal(base) && InFlight(h.w.files.journal, base)
    modifies h`readings, h`w, h`up, h`log, h`call
    ensures h.Valid() && (ok ==> h.up) && (h.up ==> old(h.up)) && SameGround(old(h.w), h.w)
    ensures OnTrack(h, p) && p == progress.(cleared := p.cleared)
    ensures h.call.created == old(h.call.created) && h.call.mixed == old(h.call.mixed) && h.call.finishing == stamped
    ensures InFlight(h.w.files.journal, base) || (stamped && Concluded(h.w, base))
    ensures stamped && h.stable ==> AllUp(h.w)
    ensures stamped ==> Vouched(h.call)
    ensures ok ==> Concluded(h.w, base) && h.w.files.kubeconfig
    ensures h.reliable && SmoothAt(old(h.w), h.stableIP, 1, c) ==> ok && SmoothAt(h.w, h.stableIP, 3, c)
  {
    hide KeptWhole, Track, SmoothAt, InFlight, Coherent, FreshJournal, AllUp, SameGround;
    stamped := false;
    assert 2 !in progress.cleared;
    NotYetFinishing(h.w, h.log, h.call, progress);
    ok, p := RejoinPhase(h, base, progress, c);
    if !ok {
      return;
    }

    ghost var w1 := h.w;
    ok, stamped := VerifyAndRecord(h, base, p, c);
    SameGroundTrans(old(h.w), w1, h.w);
  }

  method VerifyAndRecord(h: Host, base: Journal, p: Progress, ghost c: nat) returns (ok: bool, stamped: bool)
    requires h.Valid() && OnTrack(h, p) && p.resetComplete && p.cleared == {2, 3} && Coherent(h.w)
    requires FreshJournal(base) && InFlight(h.w.files.journal, base) && !h.call.finishing
    modifies h`readings, h`w, h`up, h`log, h`call
    ensures h.Valid() && (ok ==> h.up) && (h.up ==> old(h.up)) && SameGround(old(h.w), h.w) && OnTrack(h, p)
    ensures h.call.created == old(h.call.created) && h.call.mixed == old(h.call.mixed) && h.call.finishing == stamped
    ensures InFlight(h.w.files.journal, base) || (stamped && Concluded(h.w, base))
    ensures stamped ==> Vouched(h.call) && (h.stable ==> AllUp(h.w))
    ensures ok ==> Concluded(h.w, base) && h.w.files.kubeconfig
    ensures h.reliable && SmoothAt(old(h.w), h.stableIP, 3, c) ==> ok && SmoothAt(h.w, h.stableIP, 3, c)
  {
    hide KeptWhole, Track, InFlight, Coherent, FreshJournal, SameGround;
    stamped := false;
    ok := VerifyPhase(h, base, p, c);
    if !ok {
      return;
    }

    ghost var w2 := h.w;
    stamped := true;
    ok := RecordCompletion(h, base, p);
    SameGroundJournal(old(h.w), w2, h.w);
    if h.reliable && SmoothAt(old(h.w), h.stableIP, 3, c) {
      SmoothFiles(w2, h.w, h.stableIP, 3, c);
    }
  }

  lemma NotYetFinishing(w: World, log: seq<Entry>, call: Call, p: Progress)
    requires Track(w, log, call, p) && !({2, 3} <= p.cleared)
    ensures !call.finishing
  {
  }
}
