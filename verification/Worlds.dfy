/**
The world outside the program: three server envelopes and their data volumes, the recovery
helpers, the network, and the durable files. Members are numbered 1 to 3 and helpers 0 to 3,
so slot 0 of `members` stands for nobody. `lost` is a history variable: it says that the run
under consideration began on a host that had lost every trace of the cluster. Every etcd database carries the identity of the
cluster (the lineage) that wrote it; no program can read that identity, the proofs can.
 */
module Worlds {
  import opened Options
  import opened Journals

  type Id = i: int | 1 <= i <= MEMBER_COUNT witness 1

  const SEED: Id := 1

  /** `starting` says that the server was started and becomes ready in time, if nothing goes wrong. */
  datatype Envelope = Missing | Stopped | Running(address: nat, legacy: bool, ready: bool, starting: bool)

  /** What a member volume holds: nothing yet, an interrupted write, or one cluster's database. */
  datatype Data = Absent | Blank | Torn | Lineage(cluster: nat)

  datatype Member = Member(envelope: Envelope, data: Data)

  datatype Staging = NoStage | PartialStage | CompleteStage

  /** Durable operator intent; a missing file reads as Running with nobody stopped. */
  datatype Desired = Desired(running: bool, stopped: seq<int>)

  datatype Files = Files(
    config: bool,
    token: Option<nat>,
    kubeconfig: bool,
    desired: Option<Desired>,
    journal: Option<Journal>,
    staging: Staging,
    current: bool)

  datatype RawWorld = RawWorld(
    members: seq<Member>,
    helpers: seq<Envelope>,
    network: bool,
    nextCluster: nat,
    files: Files,
    lost: bool)

  const NOBODY := Member(Missing, Absent)
  const NO_FILES := Files(false, None, false, None, None, NoStage, false)

  type World = w: RawWorld | |w.members| == 4 && |w.helpers| == 4
    witness RawWorld([NOBODY, NOBODY, NOBODY, NOBODY], [Missing, Missing, Missing, Missing], false, 0, NO_FILES, false)

  /** Helper containers: the snapshot copier, the seed's reset, and one clearing helper per peer. */
  const SNAPSHOT := 0
  const RESET := 1

  datatype Command =
    | RunServer(id: Id) | StopServer(id: Id) | DeleteServer(id: Id)
    | CreateNetwork | DeleteNetwork
    | CreateVolume(id: Id) | DeleteVolume(id: Id)
    | RunHelper(slot: int) | StopHelper(slot: int) | DeleteHelper(slot: int)
    | RunReset | ClearDatabase(id: Id)

  /** How a command comes back. Only Done says that it took effect. */
  datatype Report = Done | Collided | Rejected

  predicate Up(w: World, i: int)
    requires 0 <= i <= 3
  {
    w.members[i].envelope.Running?
  }

  predicate AllDown(w: World) {
    !Up(w, 1) && !Up(w, 2) && !Up(w, 3)
  }

  predicate AllUp(w: World) {
    Up(w, 1) && Up(w, 2) && Up(w, 3)
  }

  predicate NoneLost(w: World, after: World) {
    (Up(w, 1) ==> Up(after, 1)) && (Up(w, 2) ==> Up(after, 2)) && (Up(w, 3) ==> Up(after, 3))
  }

  function RunningCount(w: World): (r: nat) {
    (if Up(w, 1) then 1 else 0) + (if Up(w, 2) then 1 else 0) + (if Up(w, 3) then 1 else 0)
  }

  predicate NoEnvelopes(w: World) {
    w.members[1].envelope.Missing? && w.members[2].envelope.Missing? && w.members[3].envelope.Missing?
  }

  predicate NoVolumes(w: World) {
    w.members[1].data.Absent? && w.members[2].data.Absent? && w.members[3].data.Absent?
  }

  predicate VolumesComplete(w: World) {
    !w.members[1].data.Absent? && !w.members[2].data.Absent? && !w.members[3].data.Absent?
  }

  function SetEnvelope(w: World, i: Id, e: Envelope): (r: World) {
    w.(members := w.members[i := w.members[i].(envelope := e)])
  }

  function SetData(w: World, i: Id, d: Data): (r: World) {
    w.(members := w.members[i := w.members[i].(data := d)])
  }

  function SetHelper(w: World, k: int, e: Envelope): (r: World)
    requires 0 <= k <= 3
  {
    w.(helpers := w.helpers[k := e])
  }

  // ---- what moves without being asked --------------------------------------------------------

  /** The cluster a peer with an empty database may join: the running seed's. */
  predicate MayJoin(w: World, i: int, d: Data) {
    i != SEED && Up(w, SEED) && w.members[SEED].data.Lineage? && d == w.members[SEED].data
  }

  predicate EnvelopeDrift(before: Envelope, after: Envelope, stable: bool) {
    || after == before
    || (before.Running? && after.Running? && after.address == before.address && after.legacy == before.legacy)
    || (!stable && before.Running? && after.Stopped?)
  }

  predicate DataDrift(w: World, i: int, after: Data)
    requires 0 <= i <= 3
  {
    || after == w.members[i].data
    || (Up(w, i) && w.members[i].data.Blank? && MayJoin(w, i, after))
    || (i == SEED && w.helpers[RESET].Running? && !w.members[i].data.Absent?
        && (after.Torn? || after == Lineage(w.nextCluster)))
  }

  /**
  One move of the outside world between two commands: readiness changes, a virtual machine may
  stop on its own unless the run is `stable`, a peer may finish joining, and a reset helper that
  is still running may still be writing to the seed's volume.
   */
  predicate Drift(w: World, after: World, stable: bool) {
    && after.files == w.files && after.network == w.network && after.lost == w.lost
    && after.nextCluster >= w.nextCluster
    && (w.helpers[RESET].Running? && after.members[SEED].data != w.members[SEED].data ==> after.nextCluster > w.nextCluster)
    && (forall i | 1 <= i <= 3 :: EnvelopeDrift(w.members[i].envelope, after.members[i].envelope, stable))
    && (forall i | 1 <= i <= 3 :: DataDrift(w, i, after.members[i].data))
    && (forall k | 0 <= k <= 3 :: after.helpers[k] == w.helpers[k] || (w.helpers[k].Running? && !after.helpers[k].Missing?))
  }

  // ---- what commands do ----------------------------------------------------------------------

  predicate Collides(stableIP: seq<nat>, i: int, address: nat)
    requires |stableIP| == 4
  {
    exists j | 1 <= j <= 3 :: j != i && stableIP[j] == address
  }

  /** Starting K3s on a volume: the seed founds a new cluster on an empty one, a peer joins. */
  predicate Booted(w: World, i: Id, after: Data) {
    || after == w.members[i].data
    || (w.members[i].data.Blank? && (if i == SEED then after == Lineage(w.nextCluster) else MayJoin(w, i, after)))
  }

  predicate RunOutcome(w: World, stableIP: seq<nat>, i: Id, report: Report, after: World)
    requires |stableIP| == 4
  {
    && after.files == w.files && after.network == w.network && after.helpers == w.helpers && after.lost == w.lost
    && after.nextCluster >= w.nextCluster
    && after.members == w.members[i := after.members[i]]
    && (report.Done? ==> w.network && w.members[i].envelope.Missing? && !w.members[i].data.Absent?
                         && !after.members[i].envelope.Missing?)
    && (!w.members[i].envelope.Missing? ==> after.members[i] == w.members[i])
    && Booted(w, i, after.members[i].data)
    && (after.members[i].data != w.members[i].data ==> after.nextCluster > w.nextCluster && !report.Collided?)
    // The guest's own guard exits before K3s starts when its address is another member's.
    && (after.members[i].envelope.Running? && Collides(stableIP, i, after.members[i].envelope.address)
        ==> after.members[i].data == w.members[i].data)
    && (after.members[i].envelope.Running? && !w.members[i].envelope.Running? ==> !after.members[i].envelope.legacy)
  }

  /** The reset leaves the seed volume untouched, half written, or holding a brand new cluster. */
  predicate ResetOutcome(w: World, report: Report, after: World) {
    && after.files == w.files && after.network == w.network && after.lost == w.lost
    && after.helpers == w.helpers[RESET := after.helpers[RESET]]
    && after.nextCluster >= w.nextCluster
    && after.members == w.members[SEED := w.members[SEED].(data := after.members[SEED].data)]
    && (|| after.members[SEED].data == w.members[SEED].data
        || (!w.members[SEED].data.Absent? && after.members[SEED].data.Torn?)
        || (!w.members[SEED].data.Absent? && after.members[SEED].data == Lineage(w.nextCluster) && after.nextCluster > w.nextCluster))
    && (report.Done? ==> after.members[SEED].data == Lineage(w.nextCluster) && after.nextCluster > w.nextCluster
                         && !after.helpers[RESET].Running?)
    && (report.Collided? ==> after.members[SEED].data == w.members[SEED].data)
    && (!w.helpers[RESET].Missing? ==> !report.Done? && after == w)
  }

  /** The commands that either take their one effect or none; "stopped" also holds for a VM that is gone. */
  function Effect(w: World, cmd: Command): (r: World)
    requires !cmd.RunServer? && !cmd.RunReset?
  {
    match cmd
    case StopServer(i) => if Up(w, i) then SetEnvelope(w, i, Stopped) else w
    case DeleteServer(i) => if w.members[i].envelope.Stopped? then SetEnvelope(w, i, Missing) else w
    case CreateNetwork => w.(network := true)
    case DeleteNetwork => w.(network := false)
    case CreateVolume(i) => if w.members[i].data.Absent? then SetData(w, i, Blank) else w
    case DeleteVolume(i) => if w.members[i].envelope.Missing? then SetData(w, i, Absent) else w
    case RunHelper(k) => if 0 <= k <= 3 && w.helpers[k].Missing? then SetHelper(w, k, Running(0, false, false, false)) else w
    case StopHelper(k) => if 0 <= k <= 3 && w.helpers[k].Running? then SetHelper(w, k, Stopped) else w
    case DeleteHelper(k) => if 0 <= k <= 3 && w.helpers[k].Stopped? then SetHelper(w, k, Missing) else w
    case ClearDatabase(i) => if w.helpers[i].Running? && !w.members[i].data.Absent? then SetData(w, i, Blank) else w
  }

  /** Whether the runtime can carry the command out at all. */
  predicate Possible(w: World, cmd: Command) {
    match cmd
    case RunServer(i) => w.network && w.members[i].envelope.Missing? && !w.members[i].data.Absent?
    case StopServer(i) => !w.members[i].envelope.Missing?
    case DeleteServer(i) => w.members[i].envelope.Stopped?
    case CreateNetwork => !w.network
    case DeleteNetwork => w.network
    case CreateVolume(i) => w.members[i].data.Absent?
    case DeleteVolume(i) => !w.members[i].data.Absent? && w.members[i].envelope.Missing?
    case RunHelper(k) => 0 <= k <= 3 && w.helpers[k].Missing?
    case StopHelper(k) => 0 <= k <= 3 && !w.helpers[k].Missing?
    case DeleteHelper(k) => 0 <= k <= 3 && w.helpers[k].Stopped?
    case RunReset => w.network && w.helpers[RESET].Missing? && !w.members[SEED].data.Absent?
    case ClearDatabase(i) => w.helpers[i].Running? && !w.members[i].data.Absent?
  }

  /** Everything a command may have done by the time its client reports back. */
  predicate Outcome(w: World, stableIP: seq<nat>, cmd: Command, report: Report, after: World)
    requires |stableIP| == 4
  {
    && (report.Done? ==> Possible(w, cmd))
    && match cmd
       case RunServer(i) => RunOutcome(w, stableIP, i, report, after)
       case RunReset => ResetOutcome(w, report, after)
       case ClearDatabase(i) =>
         (after == Effect(w, cmd) || (!report.Done? && (after == w || (w.helpers[i].Running? && !w.members[i].data.Absent? && after == SetData(w, i, Torn)))))
       case _ => after == Effect(w, cmd) || (after == w && !report.Done?)
  }

  /** What a command does when nothing goes wrong. */
  function Intended(w: World, stableIP: seq<nat>, cmd: Command): (r: World)
    requires |stableIP| == 4 && Possible(w, cmd)
  {
    match cmd
    case RunServer(i) =>
      var data := if i == SEED && w.members[i].data.Blank? then Lineage(w.nextCluster)
                  else if w.members[i].data.Blank? && MayJoin(w, i, w.members[SEED].data) then w.members[SEED].data
                  else w.members[i].data;
      w.(members := w.members[i := Member(Running(stableIP[i], false, false, true), data)], nextCluster := w.nextCluster + 1)
    case RunReset =>
      w.(members := w.members[SEED := w.members[SEED].(data := Lineage(w.nextCluster))],
         helpers := w.helpers[RESET := Stopped], nextCluster := w.nextCluster + 1)
    case _ => Effect(w, cmd)
  }

  /** What waiting brings when nothing goes wrong: servers that are starting over a database become ready. */
  function Rested(w: World): (r: World)
    ensures forall i | 1 <= i <= 3 :: r.members[i].data == w.members[i].data && (Up(r, i) <==> Up(w, i))
  {
    w.(members := [w.members[0], RestedMember(w.members[1]), RestedMember(w.members[2]), RestedMember(w.members[3])])
  }

  function RestedMember(m: Member): (r: Member) {
    if m.envelope.Running? && m.envelope.starting && m.data.Lineage? then m.(envelope := m.envelope.(ready := true)) else m
  }

  // ---- lineage -----------------------------------------------------------------------------

  predicate Agree(w: World, i: Id, j: Id) {
    Up(w, i) && Up(w, j) && w.members[i].data.Lineage? && w.members[j].data.Lineage?
    ==> w.members[i].data == w.members[j].data
  }

  /** A server may only ever run over a whole database, or, as a peer, over an empty one. */
  predicate Bootable(w: World, i: Id) {
    Up(w, i) ==> w.members[i].data.Lineage? || (i != SEED && w.members[i].data.Blank?)
  }

  /** No two running servers belong to different clusters, and nothing else writes under one. */
  predicate OneLineage(w: World) {
    && Bootable(w, 1) && Bootable(w, 2) && Bootable(w, 3)
    && Agree(w, 1, 2) && Agree(w, 1, 3) && Agree(w, 2, 3)
    && !(w.helpers[RESET].Running? && Up(w, SEED))
  }

  /** All three volumes hold the database of one and the same cluster. */
  predicate Coherent(w: World) {
    && w.members[1].data.Lineage?
    && w.members[2].data == w.members[1].data
    && w.members[3].data == w.members[1].data
    && !w.helpers[RESET].Running?
  }

  predicate PeerRejoins(w: World, i: Id, cleared: set<int>) {
    && (Up(w, i) ==> i in cleared)
    && (i in cleared ==> w.members[i].data.Blank? || w.members[i].data == w.members[SEED].data)
  }

  /** After a confirmed reset: the seed holds the restored cluster, and only cleared peers may run. */
  predicate Rejoining(w: World, cleared: set<int>) {
    && w.members[SEED].data.Lineage?
    && !w.helpers[RESET].Running?
    && PeerRejoins(w, 2, cleared) && PeerRejoins(w, 3, cleared)
  }

  lemma RejoiningIsOneLineage(w: World, cleared: set<int>)
    requires Rejoining(w, cleared)
    ensures OneLineage(w)
  {
  }

  lemma DownIsOneLineage(w: World)
    requires AllDown(w)
    ensures OneLineage(w)
  {
  }

  /** The outside world never splits, founds or un-joins a cluster by itself. */
  lemma DriftKeepsLineage(w: World, after: World, stable: bool)
    requires Drift(w, after, stable)
    ensures OneLineage(w) ==> OneLineage(after)
    ensures Coherent(w) ==> Coherent(after)
    ensures forall cleared: set<int> :: Rejoining(w, cleared) ==> Rejoining(after, cleared)
    ensures AllDown(w) ==> AllDown(after)
    ensures VolumesComplete(w) ==> VolumesComplete(after)
  {
    assert forall i | 1 <= i <= 3 :: DataDrift(w, i, after.members[i].data);
  }
}
