/**
What a restore that failed after its first mutation does: it depends on how far the reset came.
A confirmed reset is carried forward, an uncertain one leaves every server down, and before any
reset the original cluster is started again unless the recovery made volumes of its own.
 */
module Rollbacks {
  import opened Options
  import opened Journals
  import opened Worlds
  import opened Hosts
  import opened Intents
  import opened Envelopes
  import opened Statuses
  import opened Revivals
  import opened Helpers
  import opened Resets
  import opened Restores

  /** What every stretch of a rollback leaves alone; the journal is written by nobody. */
  twostate predicate RollbackWork(h: Host)
    reads h
  {
    && (h.up ==> old(h.up))
    && SameGround(old(h.w), h.w) && h.w.files.journal == old(h.w).files.journal
    && h.call == old(h.call).(cleared := h.call.cleared, strayed := h.call.strayed)
    && (h.stable && h.call.finishing ==> NoneLost(old(h.w), h.w))
  }

  lemma StartingLosesNone(w: World, after: World, i: Id, stable: bool)
    requires Evolved(w, after, {i}, {}, stable) && (stable && Up(w, i) ==> Up(after, i))
    ensures stable ==> NoneLost(w, after)
  {
    assert i == 1 || Undisturbed(w, after, 1, stable);
    assert i == 2 || Undisturbed(w, after, 2, stable);
    assert i == 3 || Undisturbed(w, after, 3, stable);
  }

  lemma WatchingLosesNone(w: World, after: World, helpers: set<int>, stable: bool)
    requires Evolved(w, after, {}, helpers, stable)
    ensures stable ==> NoneLost(w, after)
  {
    assert Undisturbed(w, after, 1, stable) && Undisturbed(w, after, 2, stable) && Undisturbed(w, after, 3, stable);
  }

  lemma HelpingStaysOnTrack(w: World, log: seq<Entry>, after: World, now: seq<Entry>, call: Call, p: Progress, helpers: set<int>, stable: bool)
    requires Evolved(w, after, {}, helpers, stable) && Lineal(w, after)
    requires Discipline(w, log) ==> Discipline(after, now)
    requires Track(w, log, call, p)
    ensures Track(after, now, call, p)
  {
    hide Discipline, Rejoining, Coherent, AllDown, Blocking;
  }

  function Unhelped(w: World): (r: World) {
    w.(helpers := [w.helpers[0], Missing, Missing, Missing])
  }

  /** The recovery helpers below `k` are gone. */
  function Retired(w: World, k: int): (r: World)
    requires 1 <= k <= 4
  {
    w.(helpers := [w.helpers[0], if k > 1 then Missing else w.helpers[1], if k > 2 then Missing else w.helpers[2],
                   if k > 3 then Missing else w.helpers[3]])
  }

  lemma RetiredMore(w: World)
    ensures Retired(w, 1) == w && Retired(w, 4) == Unhelped(w)
    ensures forall k | 1 <= k <= 3 :: SetHelper(Retired(w, k), k, Missing) == Retired(w, k + 1)
  {
    assert w.helpers == [w.helpers[0], w.helpers[1], w.helpers[2], w.helpers[3]];
  }

  /** Remove the reset helper and both clearing helpers, going on after a failure. */
  method RetireHelpers(h: Host, ghost p: Progress) returns (ok: bool)
    requires h.Valid() && OnTrack(h, p)
    modifies h`w, h`up, h`log
    ensures h.Valid() && RollbackWork(h) && OnTrack(h, p) && h.call == old(h.call)
    ensures ServersLeftAlone(old(h.log), h.log)
    ensures ok ==> h.w.helpers[1].Missing? && h.w.helpers[2].Missing? && h.w.helpers[3].Missing?
    ensures h.reliable ==> ok && h.w == Unhelped(old(h.w))
  {
    hide KeptWhole, Track, Confined, Lineal, Discipline, ServersLeftAlone, SameGround, Retired, Unhelped, SetHelper;
    RetiredMore(h.w);
    NothingIsConfined(h.log, h.w, {}, {}, h.stable);
    ConfinedToNone(h.log, h.log, h.w, h.stable);
    SameGroundNothing(h.w);
    ok := true;
    for k := 1 to 4
      invariant h.Valid() && RollbackWork(h) && OnTrack(h, p) && h.call == old(h.call)
      invariant ServersLeftAlone(old(h.log), h.log)
      invariant ok && k > 1 ==> h.w.helpers[1].Missing?
      invariant ok && k > 2 ==> h.w.helpers[2].Missing?
      invariant ok && k > 3 ==> h.w.helpers[3].Missing?
      invariant h.reliable ==> ok && h.w == Retired(old(h.w), k)
    {
      ghost var w1, l1 := h.w, h.log;
      var gone := RetireOne(h, k, p);
      LeftAloneTrans(old(h.log), l1, h.log);
      SameGroundTrans(old(h.w), w1, h.w);
      assert k <= 1 || HelperUndisturbed(w1, h.w, 1);
      assert k <= 2 || HelperUndisturbed(w1, h.w, 2);
      ok := ok && gone;
    }
  }

  method RetireOne(h: Host, k: int, ghost p: Progress) returns (gone: bool)
    requires h.Valid() && 1 <= k <= 3 && OnTrack(h, p)
    modifies h`w, h`up, h`log
    ensures h.Valid() && RollbackWork(h) && OnTrack(h, p) && h.call == old(h.call)
    ensures Evolved(old(h.w), h.w, {}, {k}, h.stable) && ServersLeftAlone(old(h.log), h.log)
    ensures gone ==> h.w.helpers[k].Missing?
    ensures h.reliable ==> gone && h.w == SetHelper(old(h.w), k, Missing)
  {
    hide Track, Confined, Lineal, Discipline;
    gone := RetireHelper(h, k);
    ConfinedToNone(old(h.log), h.log, old(h.w), h.stable);
    HelpingStaysOnTrack(old(h.w), old(h.log), h.w, h.log, h.call, p, {k}, h.stable);
    WatchingLosesNone(old(h.w), h.w, {k}, h.stable);
    EvolvedIsSameGround(old(h.w), h.w, {}, {k}, h.stable);
  }

  /** Refresh the kubeconfig and see three ready members. */
  method AwaitRolledBack(h: Host, ghost p: Progress) returns (ok: bool)
    requires h.Valid() && Steady(h, p)
    modifies h`readings, h`w, h`up, h`call
    ensures h.Valid() && RollbackWork(h) && Steady(h, p) && h.call == old(h.call)
    ensures ok ==> h.up && AllSeenReady(h) && (h.stable ==> AllUp(h.w))
    ensures ok && p.resetComplete && {2, 3} <= p.cleared && !h.call.strayed ==> Coherent(h.w)
    ensures h.reliable && old(h.w).files.config && AllHealthy(Rested(old(h.w))) ==> ok && h.w == Rested(old(h.w)).(files := h.w.files)
  {
    hide Track, Coherent, Lineal, Confined, AllUp, Evolved, Watched;
    ok := RefreshKubeconfig(h, p);
    if ok {
      ok := AwaitQuietly(h, p);
    }
  }

  method AwaitQuietly(h: Host, ghost p: Progress) returns (ok: bool)
    requires h.Valid() && Steady(h, p)
    modifies h`readings, h`w
    ensures h.Valid() && RollbackWork(h) && Steady(h, p)
    ensures ok ==> h.up && AllSeenReady(h) && (h.stable ==> AllUp(h.w))
    ensures ok && p.resetComplete && {2, 3} <= p.cleared && !h.call.strayed ==> Coherent(h.w)
    ensures h.reliable && h.w.files.config && AllHealthy(h.w) ==> ok
    ensures h.reliable ==> h.w == Rested(old(h.w))
  {
    hide Track, Coherent, Lineal, Confined, AllUp;
    ok := AwaitCluster(h, p);
    WatchingLosesNone(old(h.w), h.w, {}, h.stable);
    EvolvedIsSameGround(old(h.w), h.w, {}, {}, h.stable);
  }

  // ---- before any reset --------------------------------------------------------------------

  predicate Untried(p: Progress) {
    !p.resetAttempted && p.newMembers == {}
  }

  lemma DeadStaysOnTrack(w: World, after: World, log: seq<Entry>, call: Call, p: Progress, stable: bool)
    requires Track(w, log, call, p) && Watched(w, after, stable)
    ensures Track(after, log, call, p)
  {
    hide Coherent, Rejoining, AllDown, Blocking;
    WatchedKeeps(w, after, log, call, stable);
  }

  /** Start one original member of an untouched cluster. */
  method StartOriginal(h: Host, i: Id, ghost p: Progress) returns (ok: bool)
    requires h.Valid() && Steady(h, p) && Untried(p) && (h.call.mixed ==> h.call.strayed || !h.up) && !h.call.finishing
    modifies h`w, h`up, h`log
    ensures h.Valid() && RollbackWork(h) && Steady(h, p) && h.call == old(h.call)
    ensures h.reliable && Ground(old(h.w)) && AddressesFree(old(h.w), h.stableIP) ==> ok && h.w == LaunchedWorld(old(h.w), h.stableIP, i)
  {
    hide Coherent, Rejoining, Sound, OneLineage, Confined, Blocking;
    ok := StartForRecovery(h, i);
    if h.call.mixed && !h.call.strayed {
      DeadStaysOnTrack(old(h.w), h.w, h.log, h.call, p, h.stable);
    }
    EvolvedIsSameGround(old(h.w), h.w, {i}, {}, h.stable);
  }

  /**
  A quorum is needed before the first server can be ready, so start all three and then wait. A
  call that began on mixed volumes strays here: nothing holds the originals together.
   */
  method RollbackOriginals(h: Host, clean: bool, ghost p: Progress) returns (ok: bool)
    requires h.Valid() && Steady(h, p) && Untried(p) && (h.call.mixed ==> h.call.strayed || !h.up) && !h.call.finishing
    modifies h`readings, h`w, h`up, h`log, h`call
    ensures h.Valid() && RollbackWork(h) && Steady(h, p) && h.call == old(h.call)
    ensures ok ==> clean && h.up && AllSeenReady(h) && (h.stable ==> AllUp(h.w))
    ensures h.reliable && clean && Reviving(old(h.w), h.stableIP, 1) ==> ok && AllHealthy(h.w) && SameData(old(h.w), h.w)
  {
    hide Track, Lineal, Confined, Coherent, AllUp, Reviving, SameData, AllHealthy, Rested, KeptWhole;
    ok := clean;
    SameDataNothing(h.w);
    for i := 1 to 4
      invariant h.Valid() && RollbackWork(h) && Steady(h, p) && h.call == old(h.call)
      invariant ok ==> clean
      invariant h.reliable && clean && Reviving(old(h.w), h.stableIP, 1)
                ==> ok && Reviving(h.w, h.stableIP, i) && SameData(old(h.w), h.w)
    {
      RevivingFacts(h.w, h.stableIP, i);
      SameDataLaunched(old(h.w), h.w, h.stableIP, i);
      var started := StartOriginal(h, i, p);
      ok := ok && started;
    }
    if !ok {
      return;
    }

    ghost var w1 := h.w;
    ok := AwaitOriginals(h, p);
    SameDataTrans(old(h.w), w1, h.w);
  }

  method AwaitOriginals(h: Host, ghost p: Progress) returns (ok: bool)
    requires h.Valid() && Steady(h, p)
    modifies h`readings, h`w, h`up, h`call
    ensures h.Valid() && RollbackWork(h) && Steady(h, p) && h.call == old(h.call)
    ensures ok ==> h.up && AllSeenReady(h) && (h.stable ==> AllUp(h.w))
    ensures h.reliable && Reviving(old(h.w), h.stableIP, 4) ==> ok && AllHealthy(h.w) && SameData(old(h.w), h.w)
  {
    hide Track, Coherent, AllUp, Reviving, SameData, AllHealthy, Rested, KeptWhole;
    RevivingEnds(h.w, h.stableIP);
    SameDataNothing(h.w);
    ok := WaitOriginal(h, p);
    SameDataNothing(h.w);
    if ok {
      ok := AwaitRolledBack(h, p);
    }
  }

  lemma SameDataTrans(a: World, b: World, c: World)
    ensures SameData(a, b) && SameData(b, c) ==> SameData(a, c)
  {
  }

  /** The volumes hold the databases they held. */
  predicate SameData(w: World, after: World) {
    && after.helpers == w.helpers
    && (forall i | 1 <= i <= 3 :: w.members[i].data.Lineage? ==> after.members[i].data == w.members[i].data)
  }

  lemma SameDataNothing(w: World)
    ensures SameData(w, w) && SameData(w, Rested(w))
    ensures forall a: World :: SameData(a, w) ==> SameData(a, Rested(w))
    ensures forall a: World, f: Files :: SameData(a, w) ==> SameData(a, Rested(w).(files := f))
    ensures forall f: Files :: AllHealthy(Rested(w).(files := f)) <==> AllHealthy(Rested(w))
  {
  }

  lemma SameDataLaunched(was: World, w: World, stableIP: seq<nat>, i: Id)
    requires |stableIP| == 4
    ensures Reviving(w, stableIP, i) && SameData(was, w) ==> SameData(was, LaunchedWorld(w, stableIP, i))
  {
  }

  lemma RevivingFacts(w: World, stableIP: seq<nat>, i: Id)
    requires |stableIP| == 4 && forall j, k | 1 <= j < k <= 3 :: stableIP[j] != stableIP[k]
    ensures Reviving(w, stableIP, i)
            ==> Ground(w) && AddressesFree(w, stableIP) && Reviving(LaunchedWorld(w, stableIP, i), stableIP, i + 1)
  {
    if Reviving(w, stableIP, i) {
      RevivingStart(w, stableIP, i);
    }
  }

  lemma RevivingEnds(w: World, stableIP: seq<nat>)
    requires |stableIP| == 4
    ensures Reviving(w, stableIP, 4) ==> AllHealthy(Rested(w)) && w.files.config
    ensures Rested(Rested(w)) == Rested(w)
  {
    RestedDrifts(w, true);
    if Reviving(w, stableIP, 4) {
      RevivedIsHealthy(w, stableIP);
    }
  }

  method WaitOriginal(h: Host, ghost p: Progress) returns (ok: bool)
    requires h.Valid() && Steady(h, p)
    modifies h`w
    ensures h.Valid() && RollbackWork(h) && Steady(h, p) && h.call == old(h.call)
    ensures h.reliable ==> h.w == Rested(old(h.w)) && (AllHealthy(h.w) ==> ok)
  {
    hide Sound, Coherent, Rejoining, OneLineage, AllDown, KeptWhole;
    ok := WaitMemberReady(h, SEED);
    if !h.call.strayed {
      TrackSurvives(old(h.w), h.w, h.log, h.call, p);
    }
    WatchingLosesNone(old(h.w), h.w, {}, h.stable);
    EvolvedIsSameGround(old(h.w), h.w, {}, {}, h.stable);
  }

  // ---- before any reset, over volumes this recovery created -----------------------------------

  /** Nothing may start: keep the intent and the servers stopped, whatever fails on the way. */
  method RollbackCreated(h: Host, ghost p: Progress)
    requires h.Valid() && OnTrack(h, p) && !h.call.finishing
    modifies h`w, h`up, h`log, h`call
    ensures h.Valid() && RollbackWork(h) && OnTrack(h, p) && h.call == old(h.call)
    ensures h.reliable ==> AllDown(h.w)
    ensures h.reliable && ReadableIntent(old(h.w).files) ==> !IntentOf(h.w.files).running
  {
    hide Lineal, Confined, Discipline, Coherent, Rejoining;
    var marked := MarkClusterStopped(h);
    TrackFiles(old(h.w), h.w, h.log, h.call, p);
    var stopped := StopAllExact(h, p);
  }

  method StopAllExact(h: Host, ghost p: Progress) returns (ok: bool)
    requires h.Valid() && OnTrack(h, p) && !h.call.finishing
    modifies h`w, h`up, h`log
    ensures h.Valid() && RollbackWork(h) && OnTrack(h, p) && h.call == old(h.call) && h.w.files == old(h.w).files
    ensures ok ==> AllDown(h.w)
    ensures h.reliable ==> ok
  {
    hide Track, Lineal, Confined;
    ok := true;
    for i := 1 to 4
      invariant h.Valid() && RollbackWork(h) && OnTrack(h, p) && h.call == old(h.call)
      invariant ok ==> (i > 1 ==> !Up(h.w, 1)) && (i > 2 ==> !Up(h.w, 2)) && (i > 3 ==> !Up(h.w, 3))
      invariant h.w.files == old(h.w).files && (h.reliable ==> ok)
    {
      ghost var w1 := h.w;
      var down := StopProtectively(h, i, p);
      assert i == 1 || Undisturbed(w1, h.w, 1, h.stable);
      assert i == 2 || Undisturbed(w1, h.w, 2, h.stable);
      ok := ok && down;
    }
  }

  /** Stop one server for certain: only what a later inspection shows counts. */
  method StopProtectively(h: Host, i: Id, ghost p: Progress) returns (ok: bool)
    requires h.Valid() && OnTrack(h, p) && !h.call.finishing
    modifies h`w, h`up, h`log
    ensures h.Valid() && RollbackWork(h) && OnTrack(h, p) && h.call == old(h.call)
    ensures Evolved(old(h.w), h.w, {i}, {}, h.stable)
    ensures ok ==> !Up(h.w, i)
    ensures h.reliable ==> ok
  {
    ok := StopAndInspect(h, i);
    RetiringStaysOnTrack(old(h.w), old(h.log), h.w, h.log, h.call, p);
    EvolvedIsSameGround(old(h.w), h.w, {i}, {}, h.stable);
  }

  lemma RetiringStaysOnTrack(w: World, log: seq<Entry>, after: World, now: seq<Entry>, call: Call, p: Progress)
    requires Lineal(w, after)
    requires Guard(w, log, call) ==> Guard(after, now, call)
    requires Track(w, log, call, p) && after.files.journal == w.files.journal
    ensures Track(after, now, call, p)
  {
    hide Guard, Rejoining, Coherent, AllDown;
  }

  method StopAndInspect(h: Host, i: Id) returns (ok: bool)
    requires h.Valid()
    modifies h`w, h`up, h`log
    ensures h.Valid() && h.RetiredOn(i)
    ensures ok ==> !Up(h.w, i)
    ensures h.reliable ==> ok
  {
    hide Evolved, Lineal, Confined, Guard;
    NothingIsConfined(h.log, h.w, {i}, {}, h.stable);
    var found, e := h.Inspect(i);
    WatchedKeeps(old(h.w), h.w, h.log, h.call, h.stable);
    ChainWatched(old(h.w), old(h.log), old(h.w), h.log, h.w, {i}, {}, h.stable);
    if !found || e.Missing? {
      return found;
    }

    ghost var w1, l1 := h.w, h.log;
    if !e.Stopped? {
      var reported := h.Stop(i);
      Chain(old(h.w), old(h.log), w1, l1, h.w, h.log, {i}, {}, h.stable);
      LinealTrans(old(h.w), w1, h.w);
    }

    ghost var w2, l2 := h.w, h.log;
    found, e := h.Inspect(i);
    WatchedKeeps(w2, h.w, h.log, h.call, h.stable);
    ChainWatched(old(h.w), old(h.log), w2, l2, h.w, {i}, {}, h.stable);
    LinealTrans(old(h.w), w2, h.w);
    ok := found && !e.Running?;
  }

  // ---- after a confirmed reset ----------------------------------------------------------------

  /**
  A fault-free continuation that has members below `i` ready on cluster `c`: of the others, those
  that run are ready, and the peers not yet emptied are down.
   */
  ghost predicate Carried(w: World, stableIP: seq<nat>, i: int, cleared: set<int>, c: nat)
    requires |stableIP| == 4
  {
    && w.network && w.files.config && NoHelpers(w) && VolumesComplete(w) && AddressesFree(w, stableIP)
    && (cleared == {} || cleared == {2} || cleared == {2, 3})
    && w.members[SEED].data == Lineage(c)
    && (forall j | 1 <= j <= 3 :: Up(w, j) ==> Healthy(w.members[j]) && w.members[j].data == Lineage(c))
    && (forall j | 1 <= j <= 3 && j < i :: Up(w, j) && (j == SEED || j in cleared))
    && (forall j | 2 <= j <= 3 :: if j in cleared then w.members[j].data.Blank? || w.members[j].data == Lineage(c) else !Up(w, j))
  }

  lemma CarriedIsBringable(w: World, stableIP: seq<nat>, i: Id, cleared: set<int>, c: nat)
    requires |stableIP| == 4 && Carried(w, stableIP, i, cleared, c) && (i == SEED || i in cleared)
    ensures w.network && !w.members[i].data.Absent? && AddressesFree(w, stableIP) && Bringable(w, i)
    ensures !Up(w, i) && w.members[i].data.Blank? ==> i != SEED && MayJoin(w, i, Lineage(c))
  {
    assert i > 1 ==> Up(w, SEED);
  }

  lemma LaunchedAlone(w: World, stableIP: seq<nat>, i: Id)
    requires |stableIP| == 4 && w.network && !w.members[i].data.Absent?
    ensures var after := LaunchedWorld(w, stableIP, i);
            && after.files == w.files && after.network && after.helpers == w.helpers
            && (forall j | 1 <= j <= 3 && j != i :: after.members[j] == w.members[j])
            && (Up(w, i) ==> after == w)
            && (!Up(w, i) ==> after.members[i].envelope == Running(stableIP[i], false, false, true))
            && (!Up(w, i) && w.members[i].data.Lineage? ==> after.members[i].data == w.members[i].data)
            && (!Up(w, i) && i != SEED && w.members[i].data.Blank? && Up(w, SEED) && w.members[SEED].data.Lineage?
                ==> after.members[i].data == w.members[SEED].data)
  {
  }

  /** Starting a server that is down leaves it ready on this cluster, and the others as they were. */
  lemma CarriedLaunch(w: World, stableIP: seq<nat>, i: Id, cleared: set<int>, c: nat)
    requires |stableIP| == 4 && forall j, k | 1 <= j < k <= 3 :: stableIP[j] != stableIP[k]
    requires Carried(w, stableIP, i, cleared, c) && (i == SEED || i in cleared)
    ensures w.network && !w.members[i].data.Absent?
    ensures var after := StartedWorld(w, stableIP, i);
            && after.files == w.files && after.network && after.helpers == w.helpers
            && Healthy(after.members[i]) && after.members[i].data == Lineage(c)
            && !Collides(stableIP, i, after.members[i].envelope.address)
            && (forall j | 1 <= j <= 3 && j != i :: after.members[j] == w.members[j])
  {
    hide LaunchedWorld, AddressesFree, MayJoin, Bringable;
    CarriedIsBringable(w, stableIP, i, cleared, c);
    LaunchedAlone(w, stableIP, i);
    assert forall j | 1 <= j <= 3 && Up(w, j) :: RestedMember(w.members[j]) == w.members[j];
    assert Up(w, i) ==> !Collides(stableIP, i, w.members[i].envelope.address) by {
      assert AddressesFree(w, stableIP);
    }
  }

  lemma CarriedStart(w: World, stableIP: seq<nat>, i: Id, cleared: set<int>, c: nat)
    requires |stableIP| == 4 && forall j, k | 1 <= j < k <= 3 :: stableIP[j] != stableIP[k]
    requires Carried(w, stableIP, i, cleared, c) && (i == SEED || i in cleared)
    ensures w.network && !w.members[i].data.Absent? && AddressesFree(w, stableIP) && Bringable(w, i)
    ensures Carried(StartedWorld(w, stableIP, i), stableIP, i + 1, cleared, c)
  {
    hide StartedWorld, Bringable, Collides;
    CarriedIsBringable(w, stableIP, i, cleared, c);
    CarriedLaunch(w, stableIP, i, cleared, c);
  }

  lemma CarriedIsSmooth(w: World, stableIP: seq<nat>, i: Id, cleared: set<int>, c: nat)
    requires |stableIP| == 4 && i != SEED && i !in cleared && Carried(w, stableIP, i, cleared, c)
    ensures SmoothAt(w, stableIP, i - 1, c)
  {
    assert i == 2 ==> 3 !in cleared;
  }

  lemma SmoothIsCarried(w: World, stableIP: seq<nat>, i: Id, cleared: set<int>, c: nat)
    requires |stableIP| == 4 && i != SEED && SmoothAt(w, stableIP, i, c)
    requires cleared == {} || cleared == {2} || cleared == {2, 3}
    requires i !in cleared && (i == 3 ==> 2 in cleared)
    ensures Carried(w, stableIP, i + 1, cleared + {i}, c)
  {
    assert i == 2 ==> cleared + {i} == {2};
    assert i == 3 ==> cleared + {i} == {2, 3};
  }

  lemma CarriedEnds(w: World, stableIP: seq<nat>, cleared: set<int>, c: nat)
    requires |stableIP| == 4
    ensures Carried(w, stableIP, 4, cleared, c) ==> OnCluster(w, c) && w.files.config && Rested(w) == w
  {
    if Carried(w, stableIP, 4, cleared, c) {
      assert Rested(w).members == w.members;
    }
  }

  /** Carry the restore forward: the seed, then each peer, emptied first unless it already was. */
  method RollForward(h: Host, clean: bool, progress: Progress, ghost c: nat) returns (ok: bool, p: Progress)
    requires h.Valid() && !h.pledged && OnTrack(h, progress) && progress.resetComplete
    modifies h`readings, h`w, h`up, h`log, h`call
    ensures h.Valid() && RollbackWork(h) && OnTrack(h, p) && p == progress.(cleared := p.cleared)
    ensures ok ==> clean && h.up && AllSeenReady(h) && Coherent(h.w) && (h.stable ==> AllUp(h.w))
    ensures h.stable && h.call.finishing && AllUp(old(h.w)) ==> h.log == old(h.log)
    ensures h.reliable && clean && Carried(old(h.w), h.stableIP, 1, progress.cleared, c) ==> ok && OnCluster(h.w, c)
  {
    hide Track, Lineal, Confined, Coherent, Carried, AllHealthy, KeptWhole, OnCluster, Rested, SameGround, AllSeenReady, AddressesFree;
    p := progress;
    ok, p := CarryServers(h, p, c);
    ghost var w1 := h.w;
    CarriedEnds(w1, h.stableIP, p.cleared, c);
    ok := ok && clean;
    if ok {
      HealthyMembers(w1, c);
      ok := AwaitRolledBack(h, p);
      SameGroundTrans(old(h.w), w1, h.w);
    }
  }

  method CarryServers(h: Host, progress: Progress, ghost c: nat) returns (ok: bool, p: Progress)
    requires h.Valid() && !h.pledged && OnTrack(h, progress) && progress.resetComplete
    modifies h`w, h`up, h`log, h`call
    ensures h.Valid() && RollbackWork(h) && OnTrack(h, p) && p == progress.(cleared := p.cleared)
    ensures ok ==> {2, 3} <= p.cleared
    ensures h.stable && h.call.finishing && AllUp(old(h.w)) ==> h.log == old(h.log)
    ensures h.reliable && Carried(old(h.w), h.stableIP, 1, progress.cleared, c) ==> ok && Carried(h.w, h.stableIP, 4, p.cleared, c)
  {
    hide Track, Lineal, Confined, Coherent, Carried, AllHealthy, KeptWhole, SameGround, AddressesFree;
    p := progress;
    ok := StartCarried(h, SEED, p, c);
    if !ok {
      return;
    }
    for i := 2 to 4
      invariant h.reliable && Carried(old(h.w), h.stableIP, 1, progress.cleared, c) ==> ok && Carried(h.w, h.stableIP, i, p.cleared, c)
      invariant h.Valid() && RollbackWork(h) && OnTrack(h, p) && p == progress.(cleared := p.cleared)
      invariant ok ==> Peers(i) <= p.cleared
      invariant h.stable && h.call.finishing && AllUp(old(h.w)) ==> h.log == old(h.log) && AllUp(h.w)
    {
      ghost var w1 := h.w;
      var rejoined;
      rejoined, p := RejoinUncleared(h, i, p, c);
      SameGroundTrans(old(h.w), w1, h.w);
      ok := ok && rejoined;
    }
  }

  method StartCarried(h: Host, i: Id, p: Progress, ghost c: nat) returns (ok: bool)
    requires h.Valid() && OnTrack(h, p) && p.resetComplete && (i == SEED || i in p.cleared)
    modifies h`w, h`up, h`log
    ensures h.Valid() && RollbackWork(h) && OnTrack(h, p) && h.call == old(h.call)
    ensures h.stable && Up(old(h.w), i) ==> h.log == old(h.log)
    ensures h.reliable && Carried(old(h.w), h.stableIP, i, p.cleared, c) ==> ok && Carried(h.w, h.stableIP, i + 1, p.cleared, c)
  {
    hide Carried, Track;
    if Carried(h.w, h.stableIP, i, p.cleared, c) {
      CarriedStart(h.w, h.stableIP, i, p.cleared, c);
    }
    ok := StartRestored(h, i, p);
    EvolvedIsSameGround(old(h.w), h.w, {i}, {}, h.stable);
    StartingLosesNone(old(h.w), h.w, i, h.stable);
  }

  method RejoinUncleared(h: Host, i: Id, progress: Progress, ghost c: nat) returns (ok: bool, p: Progress)
    requires h.Valid() && !h.pledged && OnTrack(h, progress) && progress.resetComplete && i != SEED
    modifies h`w, h`up, h`log, h`call
    ensures h.Valid() && RollbackWork(h) && OnTrack(h, p) && p == progress.(cleared := p.cleared)
    ensures progress.cleared <= p.cleared && (ok ==> i in p.cleared)
    ensures h.stable && h.call.finishing && Up(old(h.w), i) ==> h.log == old(h.log)
    ensures h.reliable && Carried(old(h.w), h.stableIP, i, progress.cleared, c) ==> ok && Carried(h.w, h.stableIP, i + 1, p.cleared, c)
  {
    hide Track, Lineal, Confined, Carried, SmoothAt;
    p := progress;
    if i in p.cleared {
      ok := StartCarried(h, i, p, c);
    } else {
      NotYetFinishing(h.w, h.log, h.call, p);
      CarriedClears(h.w, h.stableIP, i, p.cleared, c);
      ok, p := RejoinPeer(h, i, p, c);
      RejoinedIsCarried(old(h.w), h.w, h.stableIP, i, progress.cleared, p.cleared, c);
      EvolvedIsSameGround(old(h.w), h.w, {i}, {i}, h.stable);
    }
  }

  lemma CarriedClears(w: World, stableIP: seq<nat>, i: Id, cleared: set<int>, c: nat)
    requires |stableIP| == 4 && i != SEED && i !in cleared
    ensures Carried(w, stableIP, i, cleared, c) ==> SmoothAt(w, stableIP, i - 1, c)
  {
    if Carried(w, stableIP, i, cleared, c) {
      CarriedIsSmooth(w, stableIP, i, cleared, c);
    }
  }

  lemma RejoinedIsCarried(w: World, after: World, stableIP: seq<nat>, i: Id, cleared: set<int>, more: set<int>, c: nat)
    requires |stableIP| == 4 && i != SEED && i !in cleared && cleared <= more <= cleared + {i}
    ensures Carried(w, stableIP, i, cleared, c) && SmoothAt(after, stableIP, i, c) && i in more ==> Carried(after, stableIP, i + 1, more, c)
  {
    if Carried(w, stableIP, i, cleared, c) && SmoothAt(after, stableIP, i, c) && i in more {
      assert more == cleared + {i};
      SmoothIsCarried(after, stableIP, i, cleared, c);
    }
  }

  /** Health is a matter of the members alone. */
  lemma HealthyMembers(w: World, c: nat)
    ensures forall other: World :: other.members == w.members ==> (AllHealthy(other) <==> AllHealthy(w)) && (OnCluster(other, c) <==> OnCluster(w, c))
    ensures OnCluster(w, c) ==> AllHealthy(w)
  {
  }

  // ---- the rollback, and the call around it -----------------------------------------------------

  /** True only when three ready members of one cluster were seen in the end. */
  method Rollback(h: Host, progress: Progress, ghost c: nat) returns (recovered: bool)
    requires h.Valid() && !h.pledged && OnTrack(h, progress)
    modifies h`readings, h`efforts, h`w, h`up, h`log, h`call
    ensures h.Valid() && RollbackWork(h)
    ensures !h.call.strayed ==> h.Disciplined() && Marked(h.w, h.call) && (recovered || AtVerifying(h.w.files.journal) ==> Coherent(h.w))
    ensures h.call.strayed ==> h.call.mixed && !progress.resetAttempted && old(h.up)
    ensures h.efforts == old(h.efforts) + [RollingBack]
    ensures h.stable && h.call.finishing && AllUp(old(h.w)) ==> ServersLeftAlone(old(h.log), h.log)
    ensures recovered ==> h.up && AllSeenReady(h) && (h.stable ==> AllUp(h.w))
    ensures h.call.finishing ==> Coherent(h.w)
    ensures Blocking(h.w.files.journal) || h.call.finishing
    ensures progress.resetAttempted && !progress.resetComplete
            ==> !recovered && AllDown(h.w) && (h.reliable ==> h.w == Unhelped(old(h.w)))
    ensures h.reliable && !progress.resetAttempted && progress.newMembers != {}
            ==> !recovered && AllDown(h.w) && (ReadableIntent(old(h.w).files) ==> !IntentOf(h.w.files).running)
    ensures h.reliable && Untried(progress) && Reviving(Unhelped(old(h.w)), h.stableIP, 1) 
            ==> recovered && AllHealthy(h.w) && SameData(Unhelped(old(h.w)), h.w)
    ensures h.reliable && progress.resetComplete && Carried(Unhelped(old(h.w)), h.stableIP, 1, progress.cleared, c)
            ==> recovered && OnCluster(h.w, c)
  {
    assert Unhelped(h.w).files == h.w.files;
    hide Coherent, Lineal, Confined, Sound, Rejoining, Reviving, Carried, OnCluster, ServersLeftAlone, AllHealthy, SameData, Track, KeptWhole,
         Unhelped, Discipline, Blocking, SameGround;
    h.efforts := h.efforts + [RollingBack];
    var p := progress;
    var clean := RetireHelpers(h, p);
    StillOpen(h.w, h.log, h.call, p);
    ghost var w1 := h.w;
    if p.resetAttempted && !p.resetComplete {
      recovered := false;
    } else if !p.resetAttempted && p.newMembers != {} {
      RollbackCreated(h, p);
      recovered := false;
    } else if !p.resetAttempted {
      h.call := h.call.(strayed := h.call.mixed && h.up);
      recovered := RollbackOriginals(h, clean, p);
    } else {
      recovered, p := RollForward(h, clean, p, c);
    }
    if !h.call.strayed {
      StillOpen(h.w, h.log, h.call, p);
    }
    SameGroundNothing(w1);
    SameGroundTrans(old(h.w), w1, h.w);
  }

  /** A journal phase that promises one cluster, of a call that made no volumes and began on one cluster, keeps that promise. */
  ghost predicate Marked(w: World, call: Call) {
    !call.created && !call.mixed && w.files.journal.Some? && Promising(w.files.journal.value.phase) ==> Coherent(w)
  }

  /** The phases in which the volumes still are, or already are again, one cluster's. */
  predicate Promising(phase: Phase) {
    Early(phase) || phase.Verifying?
  }

  /** The journal says that all three members have rejoined. */
  predicate AtVerifying(file: Option<Journal>) {
    file.Some? && file.value.phase.Verifying?
  }

  lemma StillOpen(w: World, log: seq<Entry>, call: Call, p: Progress)
    requires Track(w, log, call, p)
    ensures Discipline(w, log) && Marked(w, call)
    ensures Blocking(w.files.journal) || call.finishing
    ensures AtVerifying(w.files.journal) ==> Coherent(w)
    ensures call.finishing ==> Coherent(w) && p.resetComplete
    ensures p.resetAttempted && !p.resetComplete ==> AllDown(w)
    ensures !p.resetAttempted && p.newMembers == {} && !call.mixed ==> Coherent(w)
    ensures call.mixed ==> p.newMembers == {}
    ensures !p.resetAttempted ==> !call.attempted && !p.resetComplete
    ensures p.resetComplete ==> p.resetAttempted
    ensures p.newMembers == {} <==> !call.created
  {
    hide AllSound;
  }
}
