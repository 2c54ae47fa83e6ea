/**
What a cluster looks like while it is brought back without faults: some members ready, the others
down, their volumes whole and no address in the way.
 */
module Revivals {
  import opened Options
  import opened Journals
  import opened Worlds
  import opened Hosts
  import opened Envelopes
  import opened Statuses

  predicate AllHealthy(w: World) {
    Healthy(w.members[1]) && Healthy(w.members[2]) && Healthy(w.members[3])
  }

  predicate OthersHealthy(w: World, i: int) {
    (i == 1 || Healthy(w.members[1])) && (i == 2 || Healthy(w.members[2])) && (i == 3 || Healthy(w.members[3]))
  }

  predicate Ground(w: World) {
    w.network && w.files.config && VolumesComplete(w)
  }

  /** A volume over which a server comes up: it holds a database, or the running seed has one to join. */
  predicate Supplied(w: World, i: Id) {
    w.members[i].data.Lineage? || (w.members[i].data.Blank? && MayJoin(w, i, w.members[SEED].data))
  }

  lemma StartedHealthy(w: World, stableIP: seq<nat>, i: Id)
    requires |stableIP| == 4 && forall j, k | 1 <= j < k <= 3 :: stableIP[j] != stableIP[k]
    requires Ground(w) && !Up(w, i) && Supplied(w, i)
    ensures OthersHealthy(w, i) ==> AllHealthy(StartedWorld(w, stableIP, i))
    ensures Healthy(StartedWorld(w, stableIP, i).members[i])
    ensures AddressesFree(w, stableIP) ==> AddressesFree(StartedWorld(w, stableIP, i), stableIP)
    ensures Ground(StartedWorld(w, stableIP, i))
  {
    var after := StartedWorld(w, stableIP, i);
    var launched := LaunchedWorld(w, stableIP, i);
    assert forall j | 1 <= j <= 3 && j != i :: launched.members[j] == w.members[j];
    assert forall j | 1 <= j <= 3 && j != i :: after.members[j] == RestedMember(w.members[j]);
  }

  /** What a fault-free stop and start of one member leaves. */
  function CycledWorld(w: World, stableIP: seq<nat>, i: Id): (r: World)
    requires |stableIP| == 4 && w.network && VolumesComplete(w)
  {
    StartedWorld(SetEnvelope(w, i, Stopped), stableIP, i)
  }

  lemma StoppedStaysFree(w: World, stableIP: seq<nat>, i: Id)
    requires |stableIP| == 4
    ensures AddressesFree(w, stableIP) ==> AddressesFree(SetEnvelope(w, i, Stopped), stableIP)
    ensures AllHealthy(w) ==> OthersHealthy(SetEnvelope(w, i, Stopped), i)
    ensures Ground(w) ==> Ground(SetEnvelope(w, i, Stopped))
  {
    var after := SetEnvelope(w, i, Stopped);
    assert forall j | 1 <= j <= 3 :: Up(after, j) ==> after.members[j] == w.members[j];
  }

  lemma FreeWhateverFiles(w: World, after: World, stableIP: seq<nat>)
    requires |stableIP| == 4 && after.members == w.members
    ensures AddressesFree(w, stableIP) == AddressesFree(after, stableIP)
  {
    assert forall i | 1 <= i <= 3 :: after.members[i] == w.members[i];
  }

  /** A server that is ready, or becomes ready in time. */
  predicate Lively(m: Member) {
    m.envelope.Running? && (m.envelope.ready || m.envelope.starting) && m.data.Lineage?
  }

  /**
  Every running member is ready or starting, and every other volume holds a database or nothing
  yet; as long as the seed's is empty no peer has a database to differ from the one it founds.
   */
  predicate Halved(w: World) {
    && (forall i | 1 <= i <= 3 :: w.members[i].data.Lineage? || w.members[i].data.Blank?)
    && (forall i | 1 <= i <= 3 :: Up(w, i) ==> Lively(w.members[i]))
    && (w.members[SEED].data.Blank? ==> w.members[2].data.Blank? && w.members[3].data.Blank?)
  }

  /** Half-way through a fault-free reconcile: members below `i` run, the others run or are down. */
  ghost predicate Reviving(w: World, stableIP: seq<nat>, i: int)
    requires |stableIP| == 4
  {
    && Ground(w) && AddressesFree(w, stableIP) && Halved(w)
    && (forall j | 1 <= j <= 3 && j < i :: Up(w, j))
  }

  lemma RevivedIsHealthy(w: World, stableIP: seq<nat>)
    requires |stableIP| == 4 && Reviving(w, stableIP, 4)
    ensures AllHealthy(Rested(w)) && Ground(w)
  {
  }

  lemma RestedKeepsReviving(w: World, stableIP: seq<nat>, i: int)
    requires |stableIP| == 4
    ensures Reviving(w, stableIP, i) ==> Reviving(Rested(w), stableIP, i)
    ensures AllHealthy(w) ==> Rested(w) == w
  {
    if AllHealthy(w) {
      assert Rested(w).members == w.members;
    }
  }

  /** Starting the next member, or finding it running, brings the revival one step on. */
  lemma RevivingStart(w: World, stableIP: seq<nat>, i: Id)
    requires |stableIP| == 4 && forall j, k | 1 <= j < k <= 3 :: stableIP[j] != stableIP[k]
    requires Reviving(w, stableIP, i)
    ensures var after := LaunchedWorld(w, stableIP, i);
            && Reviving(after, stableIP, i + 1) && after.files == w.files
            && (forall j | 1 <= j <= 3 && j != i :: after.members[j] == w.members[j])
            && (!Up(w, i) ==> !Healthy(after.members[i]))
  {
    var after := LaunchedWorld(w, stableIP, i);
    if !Up(w, i) {
      assert forall j | 1 <= j <= 3 && j != i :: after.members[j] == w.members[j];
    }
  }

  /** All three members are ready on this cluster. */
  predicate OnCluster(w: World, c: nat) {
    AllHealthy(w) && forall i | 1 <= i <= 3 :: w.members[i].data == Lineage(c)
  }
}
