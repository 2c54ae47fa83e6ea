/**
Maintenance of one member at a time: stop, start, restart and migrate a single server, and take
a snapshot from the seed, without ever giving up the two-of-three majority.
 */
module Members {
  import opened Options
  import opened Journals
  import opened Worlds
  import opened Hosts
  import opened Intents
  import opened Envelopes
  import opened Statuses
  import opened Revivals
  import opened Helpers
  import Etcd

  // ---- the majority -------------------------------------------------------------------------------

  predicate Quorate(w: World) {
    RunningCount(w) >= 2
  }

  predicate OthersUp(w: World, i: int) {
    (i == 1 || Up(w, 1)) && (i == 2 || Up(w, 2)) && (i == 3 || Up(w, 3))
  }

  /** Every command met a majority, and a server was stopped only while both others ran. */
  ghost predicate Careful(was: seq<Entry>, log: seq<Entry>) {
    && was <= log
    && (forall k | |was| <= k < |log| :: Quorate(log[k].before))
    && (forall k | |was| <= k < |log| :: log[k].cmd.StopServer? ==> OthersUp(log[k].before, log[k].cmd.id))
  }

  /** When no server fails by itself, a majority that was running still is, and was at every command. */
  twostate predicate Kept(h: Host)
    reads h
  {
    && (h.up ==> old(h.up)) && old(h.readings) <= h.readings && old(h.log) <= h.log
    && (h.stable && Quorate(old(h.w)) ==> Quorate(h.w) && Careful(old(h.log), h.log))
  }

  lemma CarefulTrans(a: seq<Entry>, b: seq<Entry>, c: seq<Entry>)
    requires Careful(a, b) && Careful(b, c)
    ensures Careful(a, c)
  {
    forall k | |a| <= k < |c|
      ensures Quorate(c[k].before) && (c[k].cmd.StopServer? ==> OthersUp(c[k].before, c[k].cmd.id))
    {
      if k < |b| {
        assert c[k] == b[k];
      }
    }
  }

  lemma EvolvedKeepsOthers(w: World, after: World, i: int, helpers: set<int>, stable: bool)
    requires Evolved(w, after, {i}, helpers, stable) && stable
    ensures OthersUp(w, i) ==> OthersUp(after, i) && Quorate(after)
  {
    assert i == 1 || Undisturbed(w, after, 1, stable);
    assert i == 2 || Undisturbed(w, after, 2, stable);
    assert i == 3 || Undisturbed(w, after, 3, stable);
  }

  /** Work confined to one member costs no majority as long as both others run. */
  lemma ConfinedIsCareful(w: World, log: seq<Entry>, now: seq<Entry>, i: int, stable: bool)
    requires Confined(log, now, w, {i}, stable) && stable && OthersUp(w, i)
    ensures Careful(log, now)
  {
    forall k | |log| <= k < |now|
      ensures Quorate(now[k].before) && (now[k].cmd.StopServer? ==> OthersUp(now[k].before, now[k].cmd.id))
    {
      EvolvedKeepsOthers(w, now[k].before, i, HELPERS, stable);
    }
  }

  lemma WorkKeeps(w: World, log: seq<Entry>, after: World, now: seq<Entry>, i: int, helpers: set<int>, stable: bool)
    requires Evolved(w, after, {i}, helpers, stable) && Confined(log, now, w, {i}, stable)
    requires stable && Quorate(w) ==> OthersUp(w, i)
    ensures log <= now && (stable && Quorate(w) ==> Quorate(after) && Careful(log, now))
  {
    if stable && Quorate(w) {
      EvolvedKeepsOthers(w, after, i, helpers, stable);
      ConfinedIsCareful(w, log, now, i, stable);
    }
  }

  lemma HelpKeeps(w: World, log: seq<Entry>, after: World, now: seq<Entry>, helpers: set<int>, stable: bool)
    requires Evolved(w, after, {}, helpers, stable) && Confined(log, now, w, {}, stable)
    ensures stable && Quorate(w) ==> Quorate(after) && Careful(log, now)
  {
    if stable && Quorate(w) {
      var i := if !Up(w, 1) then 1 else if !Up(w, 2) then 2 else 3;
      EvolvedWidens(w, after, {}, {i}, helpers, helpers, stable);
      EvolvedKeepsOthers(w, after, i, helpers, stable);
      forall k | |log| <= k < |now| ensures Evolved(w, now[k].before, {i}, HELPERS, stable) {
        EvolvedWidens(w, now[k].before, {}, {i}, HELPERS, HELPERS, stable);
      }
      ConfinedIsCareful(w, log, now, i, stable);
    }
  }

  lemma ReadyOthersAreUp(s: Status, w: World, i: Id, resetting: bool, stable: bool)
    requires HonestStatus(s, w, resetting, stable) && OthersReady(s, i) && stable
    ensures OthersUp(w, i)
  {
    forall j | 1 <= j <= 3 && j != i ensures Up(w, j) {
      assert Honest(s[j], w.members[j], resetting, stable);
    }
  }

  // ---- etcd gates ---------------------------------------------------------------------------------

  /** What agreeing members report: themselves, the other two, and member 1 as their leader. */
  function AgreedView(i: Id): (r: Etcd.View) {
    Etcd.View(i, if i == 1 then [2, 3] else if i == 2 then [1, 3] else [1, 2], i == SEED)
  }

  function AgreedReports(w: World): (r: Etcd.Reports) {
    [None,
     if Healthy(w.members[1]) then Some(AgreedView(1)) else None,
     if Healthy(w.members[2]) then Some(AgreedView(2)) else None,
     if Healthy(w.members[3]) then Some(AgreedView(3)) else None]
  }

  lemma AgreedReportsPass(w: World, i: Id)
    ensures Etcd.AllWellFormed(AgreedReports(w))
    ensures AllHealthy(w) ==> Etcd.TopologyAgrees(AgreedReports(w))
    ensures OthersHealthy(w, i) ==> Etcd.RepairAgrees(AgreedReports(w), i)
  {
    var r := AgreedReports(w);
    assert Etcd.Elements([2, 3]) == {2, 3} && Etcd.Elements([1, 3]) == {1, 3} && Etcd.Elements([1, 2]) == {1, 2};
    assert Etcd.Knows(AgreedView(1)) == Etcd.Knows(AgreedView(2)) == Etcd.Knows(AgreedView(3)) == {1, 2, 3};
  }

  /** Probe the local etcd of every member; any of the answers may be missing. */
  method ReadEtcd(h: Host) returns (r: Etcd.Reports)
    requires h.Valid()
    modifies h`reports, h`w
    ensures h.Valid() && h.OnlyWatched() && Etcd.AllWellFormed(r)
    ensures h.reports == Some(r)
    ensures h.reliable ==> r == AgreedReports(h.w)
  {
    h.Environment();
    DriftEvolves(old(h.w), h.w, h.stable);
    AgreedReportsPass(h.w, SEED);
    r := AgreedReports(h.w);
    var told: Etcd.Reports := *;
    if !h.reliable && h.up && Etcd.AllWellFormed(told) {
      r := told;
    }
    h.reports := Some(r);
  }

  /** The last answers of all three members agreed. */
  ghost predicate TopologySeen(h: Host)
    reads h
  {
    h.reports.Some? && Etcd.TopologyAgrees(h.reports.value)
  }

  /** The last answers proved a majority without this member. */
  ghost predicate MajoritySeen(h: Host, i: Id)
    reads h
  {
    h.reports.Some? && Etcd.RepairAgrees(h.reports.value, i)
  }

  method EtcdTopologyHolds(h: Host) returns (ok: bool)
    requires h.Valid()
    modifies h`reports, h`w
    ensures h.Valid() && h.OnlyWatched()
    ensures ok ==> TopologySeen(h)
    ensures h.reliable && AllHealthy(h.w) ==> ok
  {
    var r := ReadEtcd(h);
    AgreedReportsPass(h.w, SEED);
    ok := Etcd.ValidateTopology(r);
  }

  method EtcdMajorityHolds(h: Host, target: Id) returns (ok: bool)
    requires h.Valid()
    modifies h`reports, h`w
    ensures h.Valid() && h.OnlyWatched()
    ensures ok ==> MajoritySeen(h, target)
    ensures h.reliable && OthersHealthy(h.w, target) ==> ok
  {
    var r := ReadEtcd(h);
    AgreedReportsPass(h.w, target);
    ok := Etcd.ValidateRepairQuorum(r, target);
  }

  // ---- preflight and waiting ------------------------------------------------------------------------

  /** Maintenance needs the network, all three volumes, and every envelope but perhaps the target's. */
  predicate Maintainable(pf: Preflight, target: int, allowMissing: bool)
    requires Shaped(pf)
  {
    && pf.network && VolumeCount(pf) == 3
    && (forall i | 1 <= i <= 3 :: pf.records[i].Missing? ==> allowMissing && i == target)
  }

  method PreflightTopology(h: Host, target: Id, allowMissing: bool) returns (ok: bool, pf: Preflight)
    requires h.Valid()
    modifies h`w
    ensures h.Valid() && h.OnlyWatched()
    ensures ok ==> h.up && Seen(pf, h.w, h.stable) && Maintainable(pf, target, allowMissing)
    ensures h.reliable && Ground(h.w) ==> Shaped(pf) && SeenExactly(pf, h.w) && (ok <==> Maintainable(pf, target, allowMissing))
  {
    ok, pf := TakePreflight(h, false);
    if !ok || !pf.network || VolumeCount(pf) != MEMBER_COUNT {
      return false, pf;
    }
    for i := 1 to 4
      invariant forall j | 1 <= j < i :: pf.records[j].Missing? ==> allowMissing && j == target
    {
      if pf.records[i].Missing? && !(allowMissing && i == target) {
        return false, pf;
      }
    }
  }

  method WaitMemberStopped(h: Host, i: Id) returns (ok: bool)
    requires h.Valid()
    modifies h`readings, h`w
    ensures h.Valid() && h.OnlyWatched()
    ensures ok ==> h.up && OthersSeenReady(h, i) && !LastOf(h.readings).value[i].runtime.Running?
    ensures h.stable && ok ==> OthersUp(h.w, i) && !Up(h.w, i)
    ensures h.reliable && h.w.files.config && OthersHealthy(h.w, i) && !Up(h.w, i) ==> ok
  {
    WatchedNothing(h.w, h.stable);
    var polls: int := *;
    if h.reliable && polls < 1 {
      polls := 1;
    }
    while polls > 0
      invariant h.Valid() && h.OnlyWatched()
      invariant h.reliable && h.w.files.config && OthersHealthy(h.w, i) && !Up(h.w, i) ==> polls > 0
    {
      ghost var w0 := h.w;
      var read, s := ReadStatus(h);
      WatchedTrans(old(h.w), w0, h.w, h.stable);
      if !read {
        return false;
      }
      var others := OtherMembersReady(s, i);
      if others && !s[i].runtime.Running? {
        if h.stable {
          ReadyOthersAreUp(s, h.w, i, w0.helpers[RESET].Running?, h.stable);
          assert Honest(s[i], h.w.members[i], w0.helpers[RESET].Running?, h.stable);
        }
        return true;
      }
      polls := polls - 1;
    }
    return false;
  }

  // ---- one member, under the operation lock ------------------------------------------------------------

  /** Work on one member that keeps the majority. */
  twostate predicate MemberWork(h: Host, i: int)
    reads h
  {
    h.WorkedOn(i) && Kept(h)
  }

  lemma WatchingIsWork(w: World, after: World, log: seq<Entry>, i: int, stable: bool)
    requires Watched(w, after, stable)
    ensures Evolved(w, after, {i}, {}, stable) && Confined(log, log, w, {i}, stable)
    ensures stable && Quorate(w) ==> Quorate(after) && Careful(log, log)
    ensures stable && OthersUp(w, i) ==> OthersUp(after, i)
  {
    EvolvedWidens(w, after, {}, {i}, {}, {}, stable);
    NothingIsConfined(log, w, {}, {}, stable);
    HelpKeeps(w, log, after, log, {}, stable);
    if stable {
      EvolvedKeepsOthers(w, after, i, {}, stable);
    }
  }

  lemma ExactMeans(s: Status, w: World)
    ensures ExactStatus(s, w) ==> (AllReady(s) <==> AllHealthy(w))
    ensures forall i: Id :: ExactStatus(s, w) ==> (OthersReady(s, i) <==> OthersHealthy(w, i)) && (s[i].runtime.Running? <==> Up(w, i))
  {
    forall i: Id | ExactStatus(s, w) ensures (OthersReady(s, i) <==> OthersHealthy(w, i)) && (s[i].runtime.Running? <==> Up(w, i)) {
    }
  }

  /** What a stop decides before it touches anything. */
  datatype Decision = Denied | Already | Proceed

  method JudgeStop(h: Host, i: Id) returns (d: Decision)
    requires h.Valid()
    modifies h`readings, h`reports, h`w
    ensures h.Valid() && h.OnlyWatched() && (!d.Denied? ==> h.up)
    ensures h.stable && !d.Denied? ==> OthersUp(h.w, i)
    ensures d.Proceed? ==> TopologySeen(h) && AllSeenReady(h)
    ensures d.Already? ==> OthersSeenReady(h, i)
    ensures h.reliable && Ground(h.w) && AllHealthy(h.w) ==> d.Proceed?
    ensures h.reliable && Ground(h.w) && !Up(h.w, i) && OthersHealthy(h.w, i) ==> d.Already?
    ensures h.reliable && Ground(h.w) && Up(h.w, i) && !AllHealthy(h.w) ==> d.Denied?
  {
    hide KeptWhole, Watched, AllReady, OthersReady, HonestStatus, Quorate;
    h.reports := None;
    var ok, pf := PreflightTopology(h, i, true);
    if !ok {
      return Denied;
    }

    ghost var w1 := h.w;
    d := JudgeStatus(h, i, pf.records[i].Running?);
    WatchedTrans(old(h.w), w1, h.w, h.stable);
  }

  /** The readiness and etcd checks, for a member whose envelope was seen running or not. */
  method JudgeStatus(h: Host, i: Id, running: bool) returns (d: Decision)
    requires h.Valid()
    modifies h`readings, h`reports, h`w
    ensures h.Valid() && h.OnlyWatched() && (!d.Denied? ==> h.up)
    ensures h.stable && !d.Denied? ==> OthersUp(h.w, i)
    ensures d.Proceed? ==> TopologySeen(h) && AllSeenReady(h)
    ensures d.Already? ==> OthersSeenReady(h, i)
    ensures h.reliable && Ground(h.w) && AllHealthy(h.w) && running ==> d.Proceed?
    ensures h.reliable && Ground(h.w) && !running && OthersHealthy(h.w, i) ==> d.Already?
    ensures h.reliable && Ground(h.w) && running && !AllHealthy(h.w) ==> d.Denied?
  {
    hide KeptWhole, Watched, Quorate, HonestStatus, Etcd.TopologyAgrees;
    ghost var resetting := h.w.helpers[RESET].Running?;
    var read, s := ReadStatus(h);
    if !read {
      return Denied;
    }
    if h.stable {
      OthersAreUpIfReady(s, h.w, i, resetting);
    }
    ExactMeans(s, h.w);
    var others := OtherMembersReady(s, i);
    if !running {
      return if others then Already else Denied;
    }
    var all := AllMembersReady(s);
    if !s[i].runtime.Running? || !all {
      return Denied;
    }

    ghost var w2 := h.w;
    var agreed := JudgeAgreement(h, i);
    WatchedTrans(old(h.w), w2, h.w, h.stable);
    d := if agreed then Proceed else Denied;
  }

  method JudgeAgreement(h: Host, i: Id) returns (ok: bool)
    requires h.Valid()
    modifies h`reports, h`w
    ensures h.Valid() && h.OnlyWatched()
    ensures ok ==> TopologySeen(h)
    ensures h.stable && OthersUp(old(h.w), i) ==> OthersUp(h.w, i)
    ensures h.reliable && AllHealthy(h.w) ==> ok
  {
    hide KeptWhole, Etcd.TopologyAgrees;
    ok := EtcdTopologyHolds(h);
    WatchingIsWork(old(h.w), h.w, h.log, i, h.stable);
  }

  lemma OthersAreUpIfReady(s: Status, w: World, i: Id, resetting: bool)
    requires HonestStatus(s, w, resetting, true)
    ensures OthersReady(s, i) || AllReady(s) ==> OthersUp(w, i)
  {
    if OthersReady(s, i) || AllReady(s) {
      ReadyOthersAreUp(s, w, i, resetting, true);
    }
  }

  /** Stop a member only while all three are ready and their etcd views agree. */
  method StopMember(h: Host, i: Id) returns (ok: bool, restartNeeded: bool)
    requires h.Valid()
    modifies h`readings, h`reports, h`w, h`up, h`log
    ensures h.Valid() && MemberWork(h, i) && (ok ==> h.up)
    ensures !restartNeeded ==> h.log == old(h.log)
    ensures restartNeeded ==> TopologySeen(h)
    ensures old(h.log) <= h.log && forall k | |old(h.log)| <= k < |h.log| :: h.log[k].cmd == StopServer(i)
    ensures h.stable && (ok || restartNeeded) ==> OthersUp(h.w, i)
    ensures h.reliable && Ground(old(h.w)) && AllHealthy(old(h.w)) ==> ok && restartNeeded && h.w == SetEnvelope(old(h.w), i, Stopped)
    ensures h.reliable && Ground(old(h.w)) && !Up(old(h.w), i) && OthersHealthy(old(h.w), i)
            ==> ok && !restartNeeded && h.w == old(h.w)
    ensures h.reliable && Ground(old(h.w)) && Up(old(h.w), i) && !AllHealthy(old(h.w)) ==> !ok && !restartNeeded && h.w == old(h.w)
  {
    hide Evolved, Confined, Quorate, Careful, OthersUp, Watched, Lineal;
    var d := JudgeStop(h, i);
    WatchingIsWork(old(h.w), h.w, h.log, i, h.stable);
    restartNeeded := d.Proceed?;
    if !d.Proceed? {
      return d.Already?, false;
    }

    ghost var w1, l1 := h.w, h.log;
    ok := StopAndWait(h, i);
    ChainWork(h, old(h.w), old(h.log), w1, l1, h.w, h.log, i);
  }

  /** The stop itself, once both others are known to run. */
  method StopAndWait(h: Host, i: Id) returns (ok: bool)
    requires h.Valid() && (h.stable ==> OthersUp(h.w, i))
    modifies h`readings, h`w, h`up, h`log
    ensures h.Valid() && MemberWork(h, i) && (ok ==> h.up)
    ensures h.stable ==> OthersUp(h.w, i)
    ensures old(h.log) <= h.log && forall k | |old(h.log)| <= k < |h.log| :: h.log[k].cmd == StopServer(i)
    ensures h.reliable && old(h.w).files.config && Up(old(h.w), i) && OthersHealthy(old(h.w), i)
            ==> ok && h.w == SetEnvelope(old(h.w), i, Stopped)
  {
    NothingIsConfined(h.log, h.w, {i}, {}, h.stable);
    ok := h.Stop(i);
    WorkKeeps(old(h.w), old(h.log), h.w, h.log, i, {}, h.stable);
    if h.stable {
      EvolvedKeepsOthers(old(h.w), h.w, i, {}, h.stable);
    }
    if ok {
      ghost var w1, l1 := h.w, h.log;
      ok := WaitMemberStopped(h, i);
      ChainWatched(old(h.w), old(h.log), w1, l1, h.w, {i}, {}, h.stable);
      WatchingIsWork(w1, h.w, h.log, i, h.stable);
      StitchCareful(old(h.w), old(h.log), w1, l1, h.w, h.log, h.stable);
    }
  }

  lemma StitchCareful(w0: World, l0: seq<Entry>, w1: World, l1: seq<Entry>, w2: World, l2: seq<Entry>, stable: bool)
    requires stable && Quorate(w0) ==> Quorate(w1) && Careful(l0, l1)
    requires stable && Quorate(w1) ==> Quorate(w2) && Careful(l1, l2)
    ensures stable && Quorate(w0) ==> Quorate(w2) && Careful(l0, l2)
  {
    if stable && Quorate(w0) {
      CarefulTrans(l0, l1, l2);
    }
  }

  /** Addresses are fixed while a server runs, so findings without a collision vouch for the world. */
  lemma SeenIsFree(pf: Preflight, w: World, stableIP: seq<nat>, stable: bool)
    requires |stableIP| == 4 && Seen(pf, w, stable)
    requires forall i | 1 <= i <= 3 :: pf.records[i].Running? ==> !Collides(stableIP, i, pf.records[i].address)
    ensures AddressesFree(w, stableIP)
  {
    forall i | 1 <= i <= 3 && Up(w, i) ensures !Collides(stableIP, i, w.members[i].envelope.address) {
      assert MemberSeen(pf, w, i, stable);
    }
  }

  lemma ExactIsFree(pf: Preflight, w: World, stableIP: seq<nat>)
    requires |stableIP| == 4
    ensures SeenExactly(pf, w) && AddressesFree(w, stableIP)
            ==> forall i | 1 <= i <= 3 :: pf.records[i].Running? ==> !Collides(stableIP, i, pf.records[i].address)
  {
  }

  lemma StillFree(w: World, after: World, stableIP: seq<nat>, stable: bool)
    requires |stableIP| == 4 && Watched(w, after, stable)
    ensures AddressesFree(w, stableIP) ==> AddressesFree(after, stableIP)
  {
    forall i | 1 <= i <= 3 && AddressesFree(w, stableIP) && Up(after, i)
      ensures !Collides(stableIP, i, after.members[i].envelope.address)
    {
      assert Undisturbed(w, after, i, stable);
    }
  }

  datatype Opening = Unsafe | Complete | Waiting | Replacing(seen: Envelope)

  /** What a start decides before it touches anything. */
  method JudgeStart(h: Host, i: Id) returns (d: Opening)
    requires h.Valid()
    modifies h`readings, h`w
    ensures h.Valid() && h.OnlyWatched() && (!d.Unsafe? ==> h.up)
    ensures d.Replacing? ==> !d.seen.Running?
    ensures d.Waiting? || d.Replacing? ==> OthersSeenReady(h, i)
    ensures d.Complete? ==> AllSeenReady(h)
    ensures h.stable && (d.Waiting? || d.Replacing?) ==> OthersUp(h.w, i)
    ensures d.Waiting? || d.Replacing? ==> AddressesFree(h.w, h.stableIP)
    ensures h.reliable && Ground(h.w) && AllHealthy(h.w) ==> d.Complete?
    ensures h.reliable && Ground(h.w) && !Up(h.w, i) && OthersHealthy(h.w, i) && AddressesFree(h.w, h.stableIP)
            ==> d == Replacing(h.w.members[i].envelope)
  {
    hide KeptWhole, Watched, HonestStatus, AddressesFree, AllReady, OthersReady;
    var ok, pf := PreflightTopology(h, i, true);
    if !ok {
      return Unsafe;
    }

    ghost var w1 := h.w;
    d := JudgeReturn(h, i, pf);
    WatchedTrans(old(h.w), w1, h.w, h.stable);
  }

  /** The readiness and address checks, for a topology that was just inspected. */
  method JudgeReturn(h: Host, i: Id, pf: Preflight) returns (d: Opening)
    requires h.Valid() && Shaped(pf) && Seen(pf, h.w, h.stable)
    modifies h`readings, h`w
    ensures h.Valid() && h.OnlyWatched() && (!d.Unsafe? ==> h.up)
    ensures d.Replacing? ==> !d.seen.Running?
    ensures d.Waiting? || d.Replacing? ==> OthersSeenReady(h, i)
    ensures d.Complete? ==> AllSeenReady(h)
    ensures h.stable && (d.Waiting? || d.Replacing?) ==> OthersUp(h.w, i)
    ensures d.Waiting? || d.Replacing? ==> AddressesFree(h.w, h.stableIP)
    ensures h.reliable && h.w.files.config && AllHealthy(h.w) ==> d.Complete?
    ensures h.reliable && h.w.files.config && SeenExactly(pf, h.w) && !Up(h.w, i) && OthersHealthy(h.w, i) && AddressesFree(h.w, h.stableIP)
            ==> d == Replacing(h.w.members[i].envelope)
  {
    hide KeptWhole, Watched, HonestStatus, Seen, AddressesFree;
    ghost var w1 := h.w;
    var read, s := ReadStatus(h);
    if !read {
      return Unsafe;
    }
    ExactMeans(s, h.w);
    ExactIsFree(pf, h.w, h.stableIP);
    var all := AllMembersReady(s);
    if all {
      return Complete;
    }
    d := WeighReturn(h, i, pf, s, w1);
  }

  /** Both others have to be ready, and no member may sit on another one's address. */
  method WeighReturn(h: Host, i: Id, pf: Preflight, s: Status, ghost w1: World) returns (d: Opening)
    requires h.Valid() && h.up && Shaped(pf) && Seen(pf, w1, h.stable) && Watched(w1, h.w, h.stable)
    requires HonestStatus(s, h.w, w1.helpers[RESET].Running?, h.stable)
    ensures !d.Complete? && (d.Replacing? ==> !d.seen.Running?)
    ensures d.Waiting? || d.Replacing? ==> OthersReady(s, i) && AddressesFree(h.w, h.stableIP) && (h.stable ==> OthersUp(h.w, i))
    ensures OthersReady(s, i) && (forall j | 1 <= j <= 3 :: pf.records[j].Running? ==> !Collides(h.stableIP, j, pf.records[j].address))
            ==> d == if pf.records[i].Running? then Waiting else Replacing(pf.records[i])
  {
    hide KeptWhole, Watched, HonestStatus, Seen, AddressesFree, OthersReady;
    if h.stable {
      OthersAreUpIfReady(s, h.w, i, w1.helpers[RESET].Running?);
    }
    var others := OtherMembersReady(s, i);
    if !others {
      return Unsafe;
    }
    var free := ValidateReservations(h.stableIP, pf.records);
    if !free {
      return Unsafe;
    }
    SeenIsFree(pf, w1, h.stableIP, h.stable);
    StillFree(w1, h.w, h.stableIP, h.stable);
    d := if pf.records[i].Running? then Waiting else Replacing(pf.records[i]);
  }

  /** Bring one member back while both others are ready. */
  method StartMember(h: Host, i: Id) returns (ok: bool)
    requires h.Valid()
    modifies h`readings, h`efforts, h`w, h`up, h`log
    ensures h.Valid() && MemberWork(h, i) && (ok ==> h.up && AllSeenReady(h))
    ensures h.efforts == old(h.efforts) + [Returning(i)]
    ensures h.reliable && Ground(old(h.w)) && AllHealthy(old(h.w)) ==> ok && h.w == old(h.w) && h.log == old(h.log)
    ensures h.reliable && Ground(old(h.w)) && !Up(old(h.w), i) && OthersHealthy(old(h.w), i) && AddressesFree(old(h.w), h.stableIP)
            && Supplied(old(h.w), i)
            ==> ok && h.w == StartedWorld(old(h.w), h.stableIP, i)
  {
    hide Evolved, Confined, Quorate, OthersUp, Careful, Watched, AddressesFree, OthersHealthy;
    h.efforts := h.efforts + [Returning(i)];
    var d := JudgeStart(h, i);
    WatchingIsWork(old(h.w), h.w, h.log, i, h.stable);
    if d.Unsafe? || d.Complete? {
      return d.Complete?;
    }

    ghost var w1, l1 := h.w, h.log;
    ok := ReplaceAndWait(h, i, d);
    Chain(old(h.w), old(h.log), w1, l1, h.w, h.log, {i}, {}, h.stable);
    StitchCareful(old(h.w), old(h.log), w1, l1, h.w, h.log, h.stable);
  }

  method ReplaceAndWait(h: Host, i: Id, d: Opening) returns (ok: bool)
    requires h.Valid() && (d.Replacing? ==> !d.seen.Running?) && (h.stable ==> OthersUp(h.w, i))
    modifies h`readings, h`w, h`up, h`log
    ensures h.Valid() && MemberWork(h, i) && (ok ==> h.up && AllSeenReady(h))
    ensures h.reliable && Ground(old(h.w)) && OthersHealthy(old(h.w), i) && AddressesFree(old(h.w), h.stableIP)
            && !Up(old(h.w), i) && Supplied(old(h.w), i) && d == Replacing(old(h.w).members[i].envelope)
            ==> ok && h.w == StartedWorld(old(h.w), h.stableIP, i)
  {
    hide KeptWhole, Lineal, Mountable, Evolved, Confined, Quorate, Careful, LaunchedWorld, StartedWorld, Supplied, AddressesFree, OthersHealthy,
         Healthy, AllReady, Rested;
    NothingIsConfined(h.log, h.w, {i}, {}, h.stable);
    LaunchBringsAll(h.w, h.stableIP, i);
    if d.Replacing? {
      ok := Recreate(h, i, d.seen);
      if !ok {
        WorkKeeps(old(h.w), old(h.log), h.w, h.log, i, {}, h.stable);
        return;
      }
    }

    ghost var w1, l1 := h.w, h.log;
    ok := WaitClusterReady(h);
    ChainWatched(old(h.w), old(h.log), w1, l1, h.w, {i}, {}, h.stable);
    WorkKeeps(old(h.w), old(h.log), h.w, h.log, i, {}, h.stable);
  }

  lemma LaunchBringsAll(w: World, stableIP: seq<nat>, i: Id)
    requires |stableIP| == 4 && forall j, k | 1 <= j < k <= 3 :: stableIP[j] != stableIP[k]
    ensures Ground(w) && OthersHealthy(w, i) && !Up(w, i) && Supplied(w, i)
            ==> && !w.members[i].data.Absent?
                && Rested(LaunchedWorld(w, stableIP, i)) == StartedWorld(w, stableIP, i)
                && (forall j | 1 <= j <= 3 :: Healthy(StartedWorld(w, stableIP, i).members[j]))
                && StartedWorld(w, stableIP, i).files == w.files
  {
    if Ground(w) && OthersHealthy(w, i) && !Up(w, i) && Supplied(w, i) {
      StartedHealthy(w, stableIP, i);
    }
  }

  lemma ChainWork(h: Host, w0: World, l0: seq<Entry>, w1: World, l1: seq<Entry>, w2: World, l2: seq<Entry>, i: int)
    requires Evolved(w0, w1, {i}, {}, h.stable) && Confined(l0, l1, w0, {i}, h.stable)
    requires Evolved(w1, w2, {i}, {}, h.stable) && Confined(l1, l2, w1, {i}, h.stable)
    requires h.stable && Quorate(w0) ==> Quorate(w1) && Careful(l0, l1)
    requires h.stable && Quorate(w1) ==> Quorate(w2) && Careful(l1, l2)
    ensures Evolved(w0, w2, {i}, {}, h.stable) && Confined(l0, l2, w0, {i}, h.stable)
    ensures h.stable && Quorate(w0) ==> Quorate(w2) && Careful(l0, l2)
  {
    Chain(w0, l0, w1, l1, w2, l2, {i}, {}, h.stable);
    StitchCareful(w0, l0, w1, l1, w2, l2, h.stable);
  }

  /** What a fault-free reconcile of this envelope leaves. */
  function Reconciled(w: World, stableIP: seq<nat>, i: Id): (r: World)
    requires |stableIP| == 4 && w.network && VolumesComplete(w)
  {
    if !Up(w, i) then LaunchedWorld(w, stableIP, i)
    else if !w.members[i].envelope.legacy then w
    else CycledWorld(w, stableIP, i)
  }

  /** Bring one envelope to the current form: keep a running one, migrate a legacy one, replace a stopped one. */
  method ReconcileMember(h: Host, i: Id, record: Envelope) returns (ok: bool)
    requires h.Valid() && (h.stable && !record.Running? ==> !Up(h.w, i))
    modifies h`readings, h`reports, h`efforts, h`w, h`up, h`log
    ensures h.Valid() && MemberWork(h, i)
    ensures record.Running? && !record.legacy ==> ok && h.w == old(h.w) && h.log == old(h.log)
    ensures h.reliable && Ground(old(h.w)) && AddressesFree(old(h.w), h.stableIP) && record == old(h.w).members[i].envelope
            && (Up(old(h.w), i) && record.legacy ==> AllHealthy(old(h.w)))
            ==> ok && h.w == Reconciled(old(h.w), h.stableIP, i)
    ensures h.reliable && Ground(old(h.w)) && record == old(h.w).members[i].envelope && Up(old(h.w), i) && record.legacy && !AllHealthy(old(h.w))
            ==> !ok && h.w == old(h.w)
    ensures h.reliable && old(h.w).network && !old(h.w).members[i].data.Absent? && AddressesFree(old(h.w), h.stableIP)
            && record == old(h.w).members[i].envelope && !record.Running?
            ==> ok && h.w == LaunchedWorld(old(h.w), h.stableIP, i)
  {
    NothingIsConfined(h.log, h.w, {i}, {}, h.stable);
    if !record.Running? {
      ok := Recreate(h, i, record);
      WorkKeeps(old(h.w), old(h.log), h.w, h.log, i, {}, h.stable);
      SameEnvelope(old(h.w), i);
    } else if record.legacy {
      var stopped;
      ok, stopped := MigrateMember(h, i);
    } else {
      ok := true;
    }
  }

  lemma SameEnvelope(w: World, i: Id)
    ensures SetEnvelope(w, i, w.members[i].envelope) == w
  {
    assert w.members[i := w.members[i]] == w.members;
  }

  lemma StoppedIsSupplied(w: World, stableIP: seq<nat>, i: Id)
    requires |stableIP| == 4
    ensures AddressesFree(w, stableIP) ==> AddressesFree(SetEnvelope(w, i, Stopped), stableIP)
    ensures AllHealthy(w) ==> OthersHealthy(SetEnvelope(w, i, Stopped), i) && Supplied(SetEnvelope(w, i, Stopped), i) && Up(w, i)
    ensures Ground(w) ==> Ground(SetEnvelope(w, i, Stopped))
    ensures !Up(SetEnvelope(w, i, Stopped), i)
    ensures w.network && VolumesComplete(w) ==> CycledWorld(w, stableIP, i) == StartedWorld(SetEnvelope(w, i, Stopped), stableIP, i)
  {
    StoppedStaysFree(w, stableIP, i);
  }

  /** Replace a legacy envelope, starting it again even when only the stop's report was lost. */
  method MigrateMember(h: Host, i: Id) returns (ok: bool, stopped: bool)
    requires h.Valid()
    modifies h`readings, h`reports, h`efforts, h`w, h`up, h`log
    ensures h.Valid() && MemberWork(h, i)
    ensures h.log != old(h.log) || stopped ==> h.efforts == old(h.efforts) + [Returning(i)]
    ensures h.reliable && Ground(old(h.w)) && AllHealthy(old(h.w)) && AddressesFree(old(h.w), h.stableIP)
            ==> ok && h.w == CycledWorld(old(h.w), h.stableIP, i)
    ensures h.reliable && Ground(old(h.w)) && Up(old(h.w), i) && !AllHealthy(old(h.w)) ==> !ok && h.w == old(h.w)
  {
    hide Evolved, Confined, Quorate, OthersUp, Careful, AddressesFree, KeptWhole, Healthy, Supplied, StartedWorld, SetEnvelope, CycledWorld;
    StoppedIsSupplied(h.w, h.stableIP, i);
    var restartNeeded;
    ok, restartNeeded := StopMember(h, i);
    stopped := ok && restartNeeded;
    if !ok && !restartNeeded {
      return;
    }

    ghost var w1, l1 := h.w, h.log;
    var started := StartMember(h, i);
    ChainWork(h, old(h.w), old(h.log), w1, l1, h.w, h.log, i);
    ok := ok && started;
  }

  /** Stop a member and start it again; a failure after the stop may have happened is answered by a start. */
  method CycleMember(h: Host, i: Id) returns (ok: bool, ghost stopped: bool)
    requires h.Valid()
    modifies h`readings, h`reports, h`efforts, h`w, h`up, h`log
    ensures h.Valid() && MemberWork(h, i)
    ensures h.log != old(h.log) ==> Answered(old(h.efforts), h.efforts, Returning(i))
    ensures stopped && !ok ==> h.efforts == old(h.efforts) + [Returning(i), Returning(i)]
    ensures h.reliable && Ground(old(h.w)) && AllHealthy(old(h.w)) && AddressesFree(old(h.w), h.stableIP)
            ==> ok && h.w == CycledWorld(old(h.w), h.stableIP, i)
  {
    hide Evolved, Confined, Quorate, OthersUp, Careful, AddressesFree;
    var again;
    ok, again := MigrateMember(h, i);
    stopped := again;
    ghost var w1, l1 := h.w, h.log;
    if again && !ok {
      var recovered := StartMember(h, i);
      ChainWork(h, old(h.w), old(h.log), w1, l1, h.w, h.log, i);
    }
  }

  // ---- the operator's commands ---------------------------------------------------------------------------

  /** Commands on server envelopes since then were about member i only. */
  ghost predicate Only(was: seq<Entry>, log: seq<Entry>, i: int) {
    && was <= log
    && (forall k | |was| <= k < |log| :: log[k].cmd.RunServer? || log[k].cmd.StopServer? || log[k].cmd.DeleteServer? ==> log[k].cmd.id == i)
  }

  /** One operator command about one member: its intent, its envelope, and a majority throughout. */
  twostate predicate MemberCommand(h: Host, i: int)
    reads h
  {
    && Kept(h) && Only(old(h.log), h.log, i)
    && h.w.files == old(h.w).files.(desired := h.w.files.desired)
    && IntentOf(h.w.files).running == IntentOf(old(h.w).files).running
    && (ReadableIntent(old(h.w).files) ==> ReadableIntent(h.w.files))
  }

  lemma IntentIsNoWork(w: World, after: World, log: seq<Entry>, d: Desired)
    requires IntentWrite(w, after, d)
    ensures Quorate(w) ==> Quorate(after) && Careful(log, log)
    ensures OthersHealthy(w, 1) == OthersHealthy(after, 1) && AllHealthy(w) == AllHealthy(after) && Ground(w) == Ground(after)
  {
  }

  method SetIntent(h: Host, i: Id, stopped: bool) returns (ok: bool)
    requires h.Valid()
    modifies h`w, h`up, h`call
    ensures h.Valid() && MemberCommand(h, i) && (ok ==> h.up)
    ensures h.w == old(h.w).(files := h.w.files)
    ensures ok ==> ReadableIntent(old(h.w).files) && ReadableIntent(h.w.files)
    ensures ok ==> IntentOf(h.w.files) == WithMember(IntentOf(old(h.w).files), i, stopped)
    ensures h.reliable && h.w.files.config && ReadableIntent(old(h.w).files) && (!stopped || IntentOf(old(h.w).files).stopped in [[], [i]]) ==> ok
  {
    if !h.w.files.config {
      return false;
    }
    ok := SetMemberIntent(h, i, stopped);
    IntentIsNoWork(old(h.w), h.w, h.log, WithMember(IntentOf(old(h.w).files), i, stopped));
  }

  lemma WorkIsOnly(log: seq<Entry>, now: seq<Entry>, w: World, i: int, stable: bool)
    requires Confined(log, now, w, {i}, stable)
    ensures Only(log, now, i)
  {
  }

  /** Work on a member after its intent was written. */
  lemma CommandStep(h: Host, w0: World, l0: seq<Entry>, w1: World, w2: World, l2: seq<Entry>, i: int)
    requires w1 == w0.(files := w1.files) && w1.files == w0.files.(desired := w1.files.desired)
    requires Evolved(w1, w2, {i}, {}, h.stable) && Confined(l0, l2, w1, {i}, h.stable)
    requires h.stable && Quorate(w1) ==> Quorate(w2) && Careful(l0, l2)
    ensures w2.files == w1.files && Only(l0, l2, i)
    ensures h.stable && Quorate(w0) ==> Quorate(w2) && Careful(l0, l2)
  {
  }

  /** The request is durable before the member is touched, so the supervisor carries it on. */
  method StopHAMember(h: Host, i: Id) returns (ok: bool)
    requires h.Valid()
    modifies h`readings, h`reports, h`w, h`up, h`log, h`call
    ensures h.Valid() && MemberCommand(h, i) && (ok ==> h.up)
    ensures h.log != old(h.log) ==> ReadableIntent(h.w.files) && IntentOf(h.w.files).stopped == [i]
    ensures h.log != old(h.log) ==> TopologySeen(h)
    ensures ok && h.stable ==> OthersUp(h.w, i)
    ensures h.reliable && Ground(old(h.w)) && AllHealthy(old(h.w)) && ReadableIntent(old(h.w).files)
            && IntentOf(old(h.w).files).stopped in [[], [i]]
            ==> ok && h.w.members == SetEnvelope(old(h.w), i, Stopped).members
  {
    ok := SetIntent(h, i, true);
    if ok {
      StoppedIsOne(IntentOf(old(h.w).files), i);
      ghost var w1 := h.w;
      var restartNeeded;
      ok, restartNeeded := StopMember(h, i);
      CommandStep(h, old(h.w), old(h.log), w1, h.w, h.log, i);
    }
  }

  lemma StoppedIsOne(d: Desired, i: Id)
    requires ValidDesired(d)
    ensures ValidDesired(WithMember(d, i, true)) ==> WithMember(d, i, true).stopped == [i]
  {
    MemberIntentIsLocal(d, i, true);
    if ValidDesired(WithMember(d, i, true)) {
      assert WithMember(d, i, true).stopped == Without(d.stopped, i) + [i];
    }
  }

  lemma IntentStillStarts(w: World, after: World, stableIP: seq<nat>, i: Id)
    requires |stableIP| == 4 && forall j, k | 1 <= j < k <= 3 :: stableIP[j] != stableIP[k]
    requires after == w.(files := after.files) && after.files == w.files.(desired := after.files.desired)
    ensures Ground(w) && !Up(w, i) && OthersHealthy(w, i) && AddressesFree(w, stableIP) && Supplied(w, i)
            ==> && Ground(after) && !Up(after, i) && OthersHealthy(after, i) && AddressesFree(after, stableIP) && Supplied(after, i)
                && after.network && !after.members[i].data.Absent? && AllHealthy(StartedWorld(after, stableIP, i))
  {
    if Ground(w) && !Up(w, i) && OthersHealthy(w, i) && Supplied(w, i) {
      StartedHealthy(after, stableIP, i);
      FreeWhateverFiles(w, after, stableIP);
    }
  }

  method StartHAMember(h: Host, i: Id) returns (ok: bool)
    requires h.Valid()
    modifies h`readings, h`efforts, h`w, h`up, h`log, h`call
    ensures h.Valid() && MemberCommand(h, i) && (ok ==> h.up)
    ensures ok ==> i !in IntentOf(h.w.files).stopped
    ensures h.reliable && Ground(old(h.w)) && !Up(old(h.w), i) && OthersHealthy(old(h.w), i) && AddressesFree(old(h.w), h.stableIP)
            && Supplied(old(h.w), i) && ReadableIntent(old(h.w).files)
            ==> ok && AllHealthy(h.w)
  {
    ok := SetIntent(h, i, false);
    if ok {
      MemberIntentIsLocal(IntentOf(old(h.w).files), i, false);
      ghost var w1 := h.w;
      IntentStillStarts(old(h.w), w1, h.stableIP, i);
      hide AddressesFree, Careful, Quorate, ValidDesired, Ground, OthersHealthy, Supplied, AllHealthy, StartedWorld, KeptWhole;
      ok := StartMember(h, i);
      CommandStep(h, old(h.w), old(h.log), w1, h.w, h.log, i);
      hide Evolved, Confined, Only;
    }
  }

  /** One stop/start cycle; no durable offline intent is left behind. */
  method RestartHAMember(h: Host, i: Id) returns (ok: bool)
    requires h.Valid()
    modifies h`readings, h`reports, h`efforts, h`w, h`up, h`log, h`call
    ensures h.Valid() && MemberCommand(h, i)
    ensures h.log != old(h.log) ==> ReadableIntent(h.w.files) && i !in IntentOf(h.w.files).stopped
    ensures h.log != old(h.log) ==> Answered(old(h.efforts), h.efforts, Returning(i))
    ensures h.reliable && Ground(old(h.w)) && AllHealthy(old(h.w)) && AddressesFree(old(h.w), h.stableIP) && ReadableIntent(old(h.w).files)
            ==> ok && AllHealthy(h.w)
  {
    ok := SetIntent(h, i, false);
    if ok {
      MemberIntentIsLocal(IntentOf(old(h.w).files), i, false);
      ghost var w1 := h.w;
      FreeWhateverFiles(old(h.w), w1, h.stableIP);
      ok := CheckAndCycle(h, i);
      CommandStep(h, old(h.w), old(h.log), w1, h.w, h.log, i);
    }
  }

  method CheckAndCycle(h: Host, i: Id) returns (ok: bool)
    requires h.Valid()
    modifies h`readings, h`reports, h`efforts, h`w, h`up, h`log
    ensures h.Valid() && MemberWork(h, i)
    ensures h.log != old(h.log) ==> Answered(old(h.efforts), h.efforts, Returning(i))
    ensures h.reliable && Ground(old(h.w)) && AllHealthy(old(h.w)) && AddressesFree(old(h.w), h.stableIP) ==> ok && AllHealthy(h.w)
  {
    hide Evolved, Confined, Quorate, OthersUp, Careful, AddressesFree, Watched, AllHealthy, Healthy, StartedWorld, SetEnvelope, Answered;
    ok := JudgeRestart(h, i);
    WatchingIsWork(old(h.w), h.w, h.log, i, h.stable);
    if ok {
      ghost var w1, l1 := h.w, h.log;
      CyclingHeals(w1, h.stableIP, i);
      ghost var stopped: bool;
      ok, stopped := CycleMember(h, i);
      ChainWork(h, old(h.w), old(h.log), w1, l1, h.w, h.log, i);
    }
  }

  lemma CyclingHeals(w: World, stableIP: seq<nat>, i: Id)
    requires |stableIP| == 4 && forall j, k | 1 <= j < k <= 3 :: stableIP[j] != stableIP[k]
    ensures Ground(w) && AllHealthy(w) ==> AllHealthy(CycledWorld(w, stableIP, i))
  {
    if Ground(w) && AllHealthy(w) {
      StoppedStaysFree(w, stableIP, i);
      StartedHealthy(SetEnvelope(w, i, Stopped), stableIP, i);
    }
  }

  /** A restart goes ahead only with the topology in place and all three ready. */
  method JudgeRestart(h: Host, i: Id) returns (ok: bool)
    requires h.Valid()
    modifies h`readings, h`w
    ensures h.Valid() && h.OnlyWatched()
    ensures ok ==> AllSeenReady(h)
    ensures h.stable && ok ==> AllUp(h.w)
    ensures h.reliable && Ground(h.w) && AllHealthy(h.w) ==> ok
  {
    var pf;
    ok, pf := PreflightTopology(h, i, false);
    ghost var w1 := h.w;
    var read, s := ReadStatus(h);
    WatchedTrans(old(h.w), w1, h.w, h.stable);
    if !ok || !read {
      return false;
    }
    if h.stable {
      OthersAreUpIfReady(s, h.w, 1, w1.helpers[RESET].Running?);
      OthersAreUpIfReady(s, h.w, 2, w1.helpers[RESET].Running?);
    }
    ok := AllMembersReady(s);
  }
}
