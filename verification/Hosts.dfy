/**
The host the program runs on, as the program can use it: it issues runtime commands whose
effect and report may disagree, reads back what exists, and writes durable files atomically.
The process may die at any command; from then on nothing it does has any effect.

`reliable` hosts apply and report every command they can carry out and never crash; `stable`
hosts may still fail, but no virtual machine stops on its own.
 */
module Hosts {
  import opened Options
  import opened Journals
  import opened Worlds
  import Etcd

  /** What one status reading says of a member. */
  datatype MemberState = MemberState(runtime: Envelope, node: bool, api: bool)

  type Status = s: seq<MemberState> | |s| == 4
    witness [MemberState(Missing, false, false), MemberState(Missing, false, false), MemberState(Missing, false, false), MemberState(Missing, false, false)]

  const UNKNOWN: Status :=
    [MemberState(Missing, false, false), MemberState(Missing, false, false), MemberState(Missing, false, false), MemberState(Missing, false, false)]

  predicate Ready(m: MemberState) {
    m.runtime.Running? && m.node && m.api
  }

  predicate AllReady(s: Status) {
    Ready(s[1]) && Ready(s[2]) && Ready(s[3])
  }

  /**
  What the current operation has done so far, as the runtime confirmed it. `vouched` is the status
  reading on which it last wrote a journal that lets the supervisor in. A restore is `mixed` when
  it began on volumes that are not one cluster's and none of which is on record as created, and
  it has `strayed` once it rolls that back by starting the originals.
   */
  datatype Call = Call(
    created: bool,
    attempted: bool,
    confirmed: bool,
    cleared: set<int>,
    finishing: bool,
    vouched: Option<Status>,
    mixed: bool,
    strayed: bool)

  const IDLE := Call(false, false, false, {}, false, None, false, false)

  /** A reading of three ready members stands behind the journal this call wrote. */
  predicate Vouched(call: Call) {
    call.vouched.Some? && AllReady(call.vouched.value)
  }

  /** One issued command, with the world it met. */
  datatype Entry = Entry(cmd: Command, before: World, call: Call)

  /** Durable writes; each leaves the old or the new file. */
  datatype Update =
    | PutJournal(journal: Journal) | PutDesired(desired: Desired) | PutToken(token: nat) | PutConfig | PutKubeconfig
    | PutStaging(staging: Staging) | PutCurrent
    | DropJournal | DropDesired | DropToken | DropConfig | DropKubeconfig | DropCurrent

  function Written(f: Files, u: Update): (r: Files) {
    match u
    case PutJournal(j) => f.(journal := Some(j))
    case PutDesired(d) => f.(desired := Some(d))
    case PutToken(t) => f.(token := Some(t))
    case PutConfig => f.(config := true)
    case PutKubeconfig => f.(kubeconfig := true)
    case PutStaging(s) => f.(staging := s)
    case PutCurrent => f.(current := true)
    case DropJournal => f.(journal := None)
    case DropDesired => f.(desired := None)
    case DropToken => f.(token := None)
    case DropConfig => f.(config := false)
    case DropKubeconfig => f.(kubeconfig := false)
    case DropCurrent => f.(current := false)
  }

  // ---- what is promised of every issued command ------------------------------------------------

  predicate Licensed(call: Call, i: Id) {
    call.attempted || call.created || call.mixed ==> call.confirmed && (i == SEED || i in call.cleared)
  }

  predicate TouchesMember(cmd: Command) {
    cmd.RunServer? || cmd.StopServer? || cmd.DeleteServer? || cmd.CreateVolume? || cmd.DeleteVolume?
    || cmd.RunReset? || cmd.ClearDatabase?
  }

  predicate RecordedAsCreated(file: Option<Journal>, i: Id) {
    file.Some? && i in CreatedIds(file.value.provenance)
  }

  /** The reset helper mounts the staging directory, so it must be there and whole. */
  predicate Mountable(w: World) {
    !w.helpers[RESET].Missing? ==> w.files.staging.CompleteStage?
  }

  /**
  The recovery discipline, one command at a time. After a total loss every server start belongs
  to a call that created volumes, and so is licensed only by that call's own confirmed reset.
   */
  predicate Sound(e: Entry, lost: bool) {
    && OneLineage(e.before)
    && Mountable(e.before)
    && (TouchesMember(e.cmd) ==> Blocking(e.before.files.journal) || e.call.finishing)
    && Fitting(e.cmd, e.before, e.call)
    && (lost && e.cmd.RunServer? ==> e.call.created)
  }

  predicate Fitting(cmd: Command, before: World, call: Call) {
    match cmd
    case RunServer(i) => Licensed(call, i)
    case RunReset => AllDown(before) && before.files.staging.CompleteStage?
    case ClearDatabase(i) => i != SEED && call.confirmed && !Up(before, i)
    case CreateVolume(i) => RecordedAsCreated(before.files.journal, i)
    case DeleteVolume(i) => false
    case _ => true
  }

  /** Every command so far was sound, and the world is safe to leave as it is. */
  ghost predicate Discipline(w: World, log: seq<Entry>) {
    && AllSound(log, w.lost)
    && OneLineage(w)
    && Mountable(w)
  }

  /** The discipline so far, and the barrier that keeps the supervisor away from the members. */
  ghost predicate Guard(w: World, log: seq<Entry>, call: Call) {
    && Discipline(w, log)
    && (Blocking(w.files.journal) || call.finishing)
    && (w.lost ==> call.created)
  }

  ghost predicate AllSound(log: seq<Entry>, lost: bool) {
    forall k | 0 <= k < |log| :: Sound(log[k], lost)
  }

  // ---- how an untouched part of the world may look later ----------------------------------------

  /** Member j was not operated on: it may have changed readiness, joined, or stopped by itself. */
  predicate Undisturbed(w: World, after: World, j: int, stable: bool)
    requires 0 <= j <= 3
  {
    && EnvelopeDrift(w.members[j].envelope, after.members[j].envelope, stable)
    && (w.members[j].data.Absent? <==> after.members[j].data.Absent?)
  }

  predicate HelperUndisturbed(w: World, after: World, k: int)
    requires 0 <= k <= 3
  {
    after.helpers[k] == w.helpers[k] || (w.helpers[k].Running? && !after.helpers[k].Missing?)
  }

  /** Only the members in `touched` and the helpers in `helpers` were operated on. */
  predicate Evolved(w: World, after: World, touched: set<int>, helpers: set<int>, stable: bool) {
    && after.files == w.files
    && after.network == w.network && after.lost == w.lost
    && (forall j | 1 <= j <= 3 :: j !in touched ==> Undisturbed(w, after, j, stable))
    && (forall j | 1 <= j <= 3 :: w.members[j].data.Absent? <==> after.members[j].data.Absent?)
    && (forall k | 0 <= k <= 3 :: k !in helpers ==> HelperUndisturbed(w, after, k))
  }

  /** Nothing happened to lineage: every coherence fact that held still holds. */
  ghost predicate Lineal(w: World, after: World) {
    && (OneLineage(w) ==> OneLineage(after))
    && (Coherent(w) ==> Coherent(after))
    && (forall cleared: set<int> :: Rejoining(w, cleared) ==> Rejoining(after, cleared))
    && (AllDown(w) ==> AllDown(after))
    && (!w.helpers[RESET].Running? ==> Settled(w, after))
  }

  /** With no reset at work, a volume that holds a cluster keeps it. */
  predicate Settled(w: World, after: World) {
    && !after.helpers[RESET].Running?
    && (forall j | 1 <= j <= 3 :: w.members[j].data.Lineage? ==> after.members[j].data == w.members[j].data)
  }

  /** With no reset at work, no volume but the excepted one loses the cluster it holds. */
  predicate LineagesKept(w: World, after: World, except: int) {
    !w.helpers[RESET].Running? ==>
      && !after.helpers[RESET].Running?
      && (forall j | 1 <= j <= 3 && j != except :: w.members[j].data.Lineage? ==> after.members[j].data == w.members[j].data)
  }

  lemma LinealKeepsLineages(w: World, after: World)
    requires Lineal(w, after)
    ensures forall i :: LineagesKept(w, after, i)
  {
  }

  lemma LineagesKeptTrans(a: World, b: World, c: World, i: int)
    requires LineagesKept(a, b, i) && LineagesKept(b, c, i)
    ensures LineagesKept(a, c, i)
  {
  }

  const HELPERS := {0, 1, 2, 3}

  /**
  Everything issued between two moments: only servers in `touched` were operated on, and each
  command met a world in which the other servers were as undisturbed as they are now.
   */
  ghost predicate Confined(was: seq<Entry>, log: seq<Entry>, w: World, touched: set<int>, stable: bool) {
    && was <= log
    && (forall k | |was| <= k < |log| ::
          && (log[k].cmd.RunServer? || log[k].cmd.StopServer? || log[k].cmd.DeleteServer? ==> log[k].cmd.id in touched)
          && Evolved(w, log[k].before, touched, HELPERS, stable))
  }

  /** Since then no server was started, stopped or deleted. */
  ghost predicate ServersLeftAlone(was: seq<Entry>, log: seq<Entry>) {
    && was <= log
    && (forall k | |was| <= k < |log| :: !log[k].cmd.RunServer? && !log[k].cmd.StopServer? && !log[k].cmd.DeleteServer?)
  }

  lemma ConfinedToNone(was: seq<Entry>, log: seq<Entry>, w: World, stable: bool)
    requires Confined(was, log, w, {}, stable)
    ensures ServersLeftAlone(was, log)
  {
  }

  lemma LeftAloneTrans(a: seq<Entry>, b: seq<Entry>, c: seq<Entry>)
    requires ServersLeftAlone(a, b) && ServersLeftAlone(b, c)
    ensures ServersLeftAlone(a, c)
  {
  }

  function Runs(log: seq<Entry>): (r: nat) {
    if log == [] then 0 else Runs(log[..|log| - 1]) + (if log[|log| - 1].cmd.RunServer? then 1 else 0)
  }

  lemma RunsOfOneMore(log: seq<Entry>, e: Entry)
    ensures Runs(log + [e]) == Runs(log) + (if e.cmd.RunServer? then 1 else 0)
  {
    assert (log + [e])[..|log|] == log;
  }

  lemma EvolvedTrans(a: World, b: World, c: World, t: set<int>, u: set<int>, h: set<int>, g: set<int>, stable: bool)
    requires Evolved(a, b, t, h, stable) && Evolved(b, c, u, g, stable)
    ensures Evolved(a, c, t + u, h + g, stable)
  {
    forall j | 1 <= j <= 3 && j !in t + u ensures Undisturbed(a, c, j, stable) {
      assert Undisturbed(a, b, j, stable) && Undisturbed(b, c, j, stable);
    }
    forall k | 0 <= k <= 3 && k !in h + g ensures HelperUndisturbed(a, c, k) {
      assert HelperUndisturbed(a, b, k) && HelperUndisturbed(b, c, k);
    }
  }

  lemma EvolvedWidens(a: World, b: World, t: set<int>, u: set<int>, h: set<int>, g: set<int>, stable: bool)
    requires Evolved(a, b, t, h, stable) && t <= u && h <= g
    ensures Evolved(a, b, u, g, stable)
  {
  }

  lemma ConfinedTrans(a: seq<Entry>, b: seq<Entry>, c: seq<Entry>, w: World, mid: World, t: set<int>, stable: bool)
    requires Confined(a, b, w, t, stable) && Confined(b, c, mid, t, stable)
    requires Evolved(w, mid, t, HELPERS, stable)
    ensures Confined(a, c, w, t, stable)
  {
    forall k | |a| <= k < |c|
      ensures c[k].cmd.RunServer? || c[k].cmd.StopServer? || c[k].cmd.DeleteServer? ==> c[k].cmd.id in t
      ensures Evolved(w, c[k].before, t, HELPERS, stable)
    {
      if k < |b| {
        assert c[k] == b[k];
      } else {
        EvolvedTrans(w, mid, c[k].before, t, t, HELPERS, HELPERS, stable);
        assert t + t == t && HELPERS + HELPERS == HELPERS;
      }
    }
  }

  /** Two stretches of work on the same members and helpers are one. */
  lemma Chain(w0: World, l0: seq<Entry>, w1: World, l1: seq<Entry>, w2: World, l2: seq<Entry>,
              t: set<int>, h: set<int>, stable: bool)
    requires Evolved(w0, w1, t, h, stable) && Confined(l0, l1, w0, t, stable)
    requires Evolved(w1, w2, t, h, stable) && Confined(l1, l2, w1, t, stable)
    requires h <= HELPERS
    ensures Evolved(w0, w2, t, h, stable) && Confined(l0, l2, w0, t, stable)
  {
    EvolvedTrans(w0, w1, w2, t, t, h, h, stable);
    assert t + t == t && h + h == h;
    EvolvedWidens(w0, w1, t, t, h, HELPERS, stable);
    ConfinedTrans(l0, l1, l2, w0, w1, t, stable);
  }

  /** A stretch of work followed by mere observation. */
  lemma ChainWatched(w0: World, l0: seq<Entry>, w1: World, l1: seq<Entry>, w2: World,
                     t: set<int>, h: set<int>, stable: bool)
    requires Evolved(w0, w1, t, h, stable) && Confined(l0, l1, w0, t, stable)
    requires Evolved(w1, w2, {}, {}, stable)
    ensures Evolved(w0, w2, t, h, stable) && Confined(l0, l1, w0, t, stable)
  {
    EvolvedTrans(w0, w1, w2, t, {}, h, {}, stable);
    assert t + {} == t && h + {} == h;
  }

  lemma NothingIsConfined(log: seq<Entry>, w: World, t: set<int>, h: set<int>, stable: bool)
    ensures Confined(log, log, w, t, stable) && Evolved(w, w, t, h, stable) && Lineal(w, w)
  {
  }

  lemma OneIsConfined(log: seq<Entry>, now: seq<Entry>, e: Entry, w: World, touched: set<int>, stable: bool)
    requires now == log || now == log + [e]
    requires Drift(w, e.before, stable)
    requires e.cmd.RunServer? || e.cmd.StopServer? || e.cmd.DeleteServer? ==> e.cmd.id in touched
    ensures Confined(log, now, w, touched, stable)
    ensures Runs(now) <= Runs(log) + (if e.cmd.RunServer? then 1 else 0)
  {
    DriftEvolves(w, e.before, stable);
    EvolvedWidens(w, e.before, {}, touched, {}, HELPERS, stable);
    RunsOfOneMore(log, e);
  }

  /** Work that makes up for earlier work: bring a stopped member back, roll a failed restore back, undo creations. */
  datatype Effort = Returning(id: Id) | RollingBack | Undoing

  /** The program went on to this effort and to none after it. */
  ghost predicate Answered(was: seq<Effort>, now: seq<Effort>, e: Effort) {
    was < now && now[|now| - 1] == e
  }

  /** The names APC uses for runtime resources. */
  datatype Resource = Network | VolumeOf(id: Id) | EnvelopeOf(id: Id) | HelperOf(slot: int)

  lemma IntendedIsAnOutcome(w: World, stableIP: seq<nat>, cmd: Command)
    requires |stableIP| == 4 && forall i, j | 1 <= i < j <= 3 :: stableIP[i] != stableIP[j]
    requires Possible(w, cmd)
    ensures Outcome(w, stableIP, cmd, Done, Intended(w, stableIP, cmd))
  {
  }

  lemma LostReportIsAnOutcome(w: World, stableIP: seq<nat>, cmd: Command, report: Report, after: World)
    requires |stableIP| == 4
    requires Outcome(w, stableIP, cmd, report, after)
    ensures Outcome(w, stableIP, cmd, Rejected, after)
  {
  }

  lemma NothingIsAnOutcome(w: World, stableIP: seq<nat>, cmd: Command)
    requires |stableIP| == 4
    ensures Outcome(w, stableIP, cmd, Rejected, w)
  {
    assert w.members == w.members[SEED := w.members[SEED]];
    assert w.helpers == w.helpers[RESET := w.helpers[RESET]];
    if cmd.RunServer? {
      assert w.members == w.members[cmd.id := w.members[cmd.id]];
    }
  }

  lemma DriftEvolves(w: World, after: World, stable: bool)
    requires Drift(w, after, stable)
    ensures Evolved(w, after, {}, {}, stable) && Lineal(w, after)
    ensures Mountable(w) ==> Mountable(after)
  {
    DriftKeepsLineage(w, after, stable);
    forall j | 1 <= j <= 3 ensures w.members[j].data.Absent? <==> after.members[j].data.Absent? {
      assert DataDrift(w, j, after.members[j].data);
    }
  }

  lemma DisciplineGrows(w: World, log: seq<Entry>, call: Call, cmd: Command, before: World, after: World, now: seq<Entry>, stable: bool)
    requires Discipline(w, log) && Drift(w, before, stable)
    requires now == log + [Entry(cmd, before, call)] || now == log
    requires !TouchesMember(cmd) && after.lost == before.lost
    requires OneLineage(after) && Mountable(after)
    ensures Discipline(after, now)
  {
    DriftEvolves(w, before, stable);
    assert Sound(Entry(cmd, before, call), w.lost);
  }

  lemma HelperStep(w: World, before: World, k: int, e: Envelope, stable: bool)
    requires 0 <= k <= 3 && Drift(w, before, stable)
    requires k == RESET ==> !e.Running? && !before.helpers[k].Missing?
    ensures var after := SetHelper(before, k, e);
            && Evolved(w, after, {}, {k}, stable) && Lineal(w, after)
            && (Mountable(w) ==> Mountable(after))
  {
    DriftEvolves(w, before, stable);
  }

  lemma HelperCommandStep(w: World, before: World, stableIP: seq<nat>, cmd: Command, k: int, report: Report, after: World, stable: bool)
    requires |stableIP| == 4 && 0 <= k <= 3
    requires (cmd == RunHelper(k) && k != RESET) || cmd == StopHelper(k) || cmd == DeleteHelper(k)
    requires Drift(w, before, stable) && Outcome(before, stableIP, cmd, report, after)
    ensures Evolved(w, after, {}, {k}, stable) && Lineal(w, after)
    ensures Mountable(w) ==> Mountable(after)
    ensures report.Done? ==> match cmd
                             case RunHelper(_) => !after.helpers[k].Missing?
                             case StopHelper(_) => !after.helpers[k].Running?
                             case _ => after.helpers[k].Missing?
    ensures !cmd.RunHelper? && w.helpers[k].Missing? ==> after.helpers[k].Missing?
  {
    DriftEvolves(w, before, stable);
    if after != before {
      assert after == SetHelper(before, k, after.helpers[k]);
      HelperStep(w, before, k, after.helpers[k], stable);
    } else {
      EvolvedWidens(w, after, {}, {}, {}, {k}, stable);
    }
  }

  lemma ResetStep(w: World, before: World, report: Report, after: World, stable: bool)
    requires Drift(w, before, stable) && ResetOutcome(before, report, after)
    ensures Evolved(w, after, {}, {RESET}, stable)
    ensures AllDown(w) ==> AllDown(before) && AllDown(after)
    ensures w.files.staging.CompleteStage? ==> Mountable(after)
    ensures report.Done? && w.members[SEED].data.Absent? ==> false
    ensures report.Done? ==> after.members[SEED].data.Lineage? && !after.helpers[RESET].Running?
    ensures forall i | 2 <= i <= 3 :: AllDown(w) ==> after.members[i] == w.members[i]
  {
    DriftEvolves(w, before, stable);
    forall i | 2 <= i <= 3 && AllDown(w) ensures after.members[i] == w.members[i] {
      assert DataDrift(w, i, before.members[i].data);
    }
  }

  lemma RetornIsRejoining(w: World, i: Id, d: Data, cleared: set<int>)
    requires i != SEED && !Up(w, i) && Rejoining(w, cleared)
    ensures Rejoining(SetData(w, i, d), cleared - {i})
    ensures d.Blank? ==> Rejoining(SetData(w, i, d), cleared - {i} + {i})
  {
  }

  lemma ClearStep(w: World, before: World, stableIP: seq<nat>, i: Id, report: Report, after: World, stable: bool)
    requires |stableIP| == 4 && i != SEED
    requires Drift(w, before, stable) && Outcome(before, stableIP, ClearDatabase(i), report, after)
    requires !Up(w, i)
    ensures Evolved(w, after, {}, {}, stable) && !Up(before, i) && !Up(after, i)
    ensures Mountable(w) ==> Mountable(after)
    ensures report.Done? ==> after.members[i].data.Blank?
    ensures after == SetData(before, i, after.members[i].data) && LineagesKept(w, after, i)
  {
    hide Outcome, Lineal, Drift, Coherent, Rejoining, OneLineage;
    ClearOutcome(before, stableIP, i, report, after);
    DriftEvolves(w, before, stable);
    LinealKeepsLineages(w, before);
    SetDataEvolves(w, before, i, after.members[i].data, stable);
  }

  lemma ClearOutcome(w: World, stableIP: seq<nat>, i: Id, report: Report, after: World)
    requires |stableIP| == 4 && Outcome(w, stableIP, ClearDatabase(i), report, after)
    ensures after == SetData(w, i, after.members[i].data)
    ensures w.members[i].data.Absent? <==> after.members[i].data.Absent?
    ensures report.Done? ==> after.members[i].data.Blank?
  {
    assert w == SetData(w, i, w.members[i].data);
  }

  /** Rewriting the volume of a server that is down disturbs nobody. */
  lemma SetDataEvolves(w: World, before: World, i: Id, d: Data, stable: bool)
    requires Evolved(w, before, {}, {}, stable) && !Up(w, i) && (d.Absent? <==> before.members[i].data.Absent?)
    ensures Evolved(w, SetData(before, i, d), {}, {}, stable) && !Up(before, i) && !Up(SetData(before, i, d), i)
    ensures LineagesKept(w, before, i) ==> LineagesKept(w, SetData(before, i, d), i)
  {
    var after := SetData(before, i, d);
    assert Undisturbed(w, before, i, stable);
    forall j | 1 <= j <= 3 ensures Undisturbed(w, after, j, stable) {
      assert Undisturbed(w, before, j, stable);
    }
    forall k | 0 <= k <= 3 ensures HelperUndisturbed(w, after, k) {
      assert HelperUndisturbed(w, before, k);
    }
  }

  lemma ClearKeepsRejoining(w: World, before: World, i: Id, d: Data, cleared: set<int>, stable: bool)
    requires i != SEED && !Up(w, i) && Drift(w, before, stable) && Rejoining(w, cleared)
    ensures Rejoining(SetData(before, i, d), cleared - {i}) && OneLineage(SetData(before, i, d))
    ensures d.Blank? ==> Rejoining(SetData(before, i, d), cleared - {i} + {i})
  {
    DriftKeepsLineage(w, before, stable);
    RetornIsRejoining(before, i, d, cleared);
    RejoiningIsOneLineage(SetData(before, i, d), cleared - {i});
  }

  lemma NetworkStep(w: World, before: World, after: World, stable: bool)
    requires Drift(w, before, stable) && after == before.(network := after.network)
    ensures Lineal(w, after) && (Mountable(w) ==> Mountable(after))
    ensures Evolved(w, after.(network := w.network), {}, {}, stable)
  {
    DriftEvolves(w, before, stable);
  }

  lemma VolumeStep(w: World, before: World, i: Id, stable: bool)
    requires Drift(w, before, stable) && before.members[i].data.Absent? && !Up(before, i)
    ensures var after := SetData(before, i, Blank);
            && (OneLineage(w) ==> OneLineage(after)) && (AllDown(w) ==> AllDown(after)) && (Mountable(w) ==> Mountable(after))
  {
    DriftEvolves(w, before, stable);
  }

  lemma GuardGrows(w: World, log: seq<Entry>, call: Call, cmd: Command, before: World, after: World, now: seq<Entry>, stable: bool)
    requires Guard(w, log, call) && Drift(w, before, stable)
    requires now == log + [Entry(cmd, before, call)] || now == log
    requires Fitting(cmd, before, call)
    requires after.files == before.files && after.lost == before.lost && OneLineage(after) && Mountable(after)
    ensures Guard(after, now, call)
  {
    DriftEvolves(w, before, stable);
    assert Sound(Entry(cmd, before, call), w.lost);
  }

  /** A peer counts as emptied by this call only once its clearing was confirmed. */
  function Emptied(call: Call, i: Id, done: bool): (r: Call) {
    call.(cleared := call.cleared - {i} + (if done then {i} else {}))
  }

  lemma ClearGuards(w: World, before: World, after: World, log: seq<Entry>, now: seq<Entry>, call: Call,
                    stableIP: seq<nat>, i: Id, report: Report, stable: bool)
    requires |stableIP| == 4 && i != SEED && !Up(w, i)
    requires Drift(w, before, stable) && Outcome(before, stableIP, ClearDatabase(i), report, after)
    requires Guard(w, log, call) && call.confirmed && Rejoining(w, call.cleared)
    requires now == log + [Entry(ClearDatabase(i), before, Emptied(call, i, false))] || now == log
    ensures Guard(after, now, Emptied(call, i, report.Done?)) && Rejoining(after, Emptied(call, i, report.Done?).cleared)
  {
    hide AllSound, OneLineage, Rejoining, Drift, Outcome;
    ClearStep(w, before, stableIP, i, report, after, stable);
    ClearKeepsRejoining(w, before, i, after.members[i].data, call.cleared, stable);
    assert Emptied(call, i, false).cleared == call.cleared - {i};
    GuardGrows(w, log, Emptied(call, i, false), ClearDatabase(i), before, after, now, stable);
  }

  lemma VolumeEffect(w: World, before: World, after: World, stableIP: seq<nat>, i: Id, report: Report, stable: bool)
    requires |stableIP| == 4 && Drift(w, before, stable) && Outcome(before, stableIP, CreateVolume(i), report, after)
    ensures after.files == w.files && after.network == w.network && after.lost == w.lost
    ensures forall j | 1 <= j <= 3 :: EnvelopeDrift(w.members[j].envelope, after.members[j].envelope, stable)
    ensures forall j | 1 <= j <= 3 :: after.members[j].data.Absent? ==> w.members[j].data.Absent?
    ensures forall j | 1 <= j <= 3 && j != i :: after.members[j].data.Absent? <==> w.members[j].data.Absent?
    ensures forall k | 0 <= k <= 3 :: HelperUndisturbed(w, after, k)
    ensures report.Done? ==> !after.members[i].data.Absent?
    ensures AllDown(w) ==> AllDown(after)
  {
    DriftEvolves(w, before, stable);
    forall j | 1 <= j <= 3
      ensures EnvelopeDrift(w.members[j].envelope, after.members[j].envelope, stable)
      ensures after.members[j].data.Absent? ==> w.members[j].data.Absent?
      ensures j != i ==> (after.members[j].data.Absent? <==> w.members[j].data.Absent?)
    {
      assert Undisturbed(w, before, j, stable);
    }
    forall k | 0 <= k <= 3 ensures HelperUndisturbed(w, after, k) {
      assert HelperUndisturbed(w, before, k);
    }
  }

  lemma VolumeGuards(w: World, before: World, after: World, log: seq<Entry>, now: seq<Entry>, call: Call,
                     stableIP: seq<nat>, i: Id, report: Report, stable: bool)
    requires |stableIP| == 4 && !Up(w, i)
    requires Drift(w, before, stable) && Outcome(before, stableIP, CreateVolume(i), report, after)
    requires Guard(w, log, call) && RecordedAsCreated(after.files.journal, i)
    requires now == log + [Entry(CreateVolume(i), before, call)] || now == log
    ensures Guard(after, now, call)
  {
    DriftEvolves(w, before, stable);
    if after != before {
      VolumeStep(w, before, i, stable);
    }
    GuardGrows(w, log, call, CreateVolume(i), before, after, now, stable);
  }

  /** No envelope, helper or file was operated on. */
  predicate Untouched(w: World, after: World, stable: bool) {
    && after.files == w.files && after.lost == w.lost
    && (forall j | 1 <= j <= 3 :: EnvelopeDrift(w.members[j].envelope, after.members[j].envelope, stable))
    && (forall k | 0 <= k <= 3 :: HelperUndisturbed(w, after, k))
  }

  lemma DropStep(w: World, before: World, after: World, stableIP: seq<nat>, cmd: Command, report: Report, stable: bool)
    requires |stableIP| == 4 && (cmd.DeleteVolume? || cmd.DeleteNetwork?)
    requires Drift(w, before, stable) && Outcome(before, stableIP, cmd, report, after)
    ensures Untouched(w, after, stable)
    ensures cmd.DeleteVolume? ==> after.network == w.network
    ensures after.network ==> w.network
    ensures forall j | 1 <= j <= 3 && cmd != DeleteVolume(j) :: after.members[j].data.Absent? <==> w.members[j].data.Absent?
    ensures forall j | 1 <= j <= 3 :: w.members[j].data.Absent? ==> after.members[j].data.Absent?
    ensures report.Done? ==> if cmd.DeleteVolume? then after.members[cmd.id].data.Absent? else !after.network
  {
    DriftEvolves(w, before, stable);
    forall j | 1 <= j <= 3
      ensures EnvelopeDrift(w.members[j].envelope, after.members[j].envelope, stable)
      ensures w.members[j].data.Absent? ==> after.members[j].data.Absent?
      ensures cmd != DeleteVolume(j) ==> (after.members[j].data.Absent? <==> w.members[j].data.Absent?)
    {
      assert Undisturbed(w, before, j, stable);
    }
    forall k | 0 <= k <= 3 ensures HelperUndisturbed(w, after, k) {
      assert HelperUndisturbed(w, before, k);
    }
  }

  lemma ServerGoneEvolves(w: World, before: World, i: Id, e: Envelope, stable: bool)
    requires Evolved(w, before, {}, {}, stable)
    ensures Evolved(w, SetEnvelope(before, i, e), {i}, {}, stable)
  {
  }

  lemma ServerGoneIsLineal(before: World, i: Id, e: Envelope)
    requires !e.Running?
    ensures Lineal(before, SetEnvelope(before, i, e))
  {
  }

  /** The world moved on its own, and no coherence fact was lost. */
  ghost predicate Watched(w: World, after: World, stable: bool) {
    && Evolved(w, after, {}, {}, stable) && Lineal(w, after)
    && (Mountable(w) ==> Mountable(after))
  }

  ghost predicate MayStart(w: World, call: Call) {
    || (call.attempted && call.confirmed && Rejoining(w, call.cleared))
    || (!call.attempted && !call.created && !call.mixed && Coherent(w))
  }

  lemma WatchedKeeps(w: World, after: World, log: seq<Entry>, call: Call, stable: bool)
    requires Watched(w, after, stable)
    ensures Guard(w, log, call) ==> Guard(after, log, call)
    ensures Discipline(w, log) ==> Discipline(after, log)
    ensures MayStart(w, call) ==> MayStart(after, call)
    ensures Coherent(w) ==> Coherent(after)
  {
    hide AllSound, OneLineage, Coherent, Rejoining, Blocking;
  }

  lemma WatchedTrans(a: World, b: World, c: World, stable: bool)
    requires Watched(a, b, stable) && Watched(b, c, stable)
    ensures Watched(a, c, stable)
  {
    EvolvedTrans(a, b, c, {}, {}, {}, {}, stable);
    LinealTrans(a, b, c);
  }

  lemma WatchedNothing(w: World, stable: bool)
    ensures Watched(w, w, stable)
  {
  }

  lemma LinealTrans(a: World, b: World, c: World)
    requires Lineal(a, b) && Lineal(b, c)
    ensures Lineal(a, c)
  {
  }

  lemma RestedDrifts(w: World, stable: bool)
    ensures Drift(w, Rested(w), stable)
    ensures Rested(Rested(w)) == Rested(w)
  {
  }

  lemma StopStep(w: World, before: World, stableIP: seq<nat>, i: Id, report: Report, after: World, stable: bool)
    requires |stableIP| == 4
    requires Drift(w, before, stable) && Outcome(before, stableIP, StopServer(i), report, after)
    ensures Evolved(w, after, {i}, {}, stable) && Lineal(w, after) && after.helpers == before.helpers
    ensures EnvelopeDrift(w.members[i].envelope, after.members[i].envelope, false)
    ensures report.Done? ==> !Up(after, i)
  {
    DriftEvolves(w, before, stable);
    if after != before {
      ServerGoneEvolves(w, before, i, Stopped, stable);
      ServerGoneIsLineal(before, i, Stopped);
      LinealTrans(w, before, after);
    }
  }

  lemma DeleteStep(w: World, before: World, stableIP: seq<nat>, i: Id, report: Report, after: World, stable: bool)
    requires |stableIP| == 4
    requires Drift(w, before, stable) && Outcome(before, stableIP, DeleteServer(i), report, after)
    ensures Evolved(w, after, {i}, {}, stable) && Lineal(w, after) && after.helpers == before.helpers
    ensures after.members[i].envelope.Missing? || EnvelopeDrift(w.members[i].envelope, after.members[i].envelope, stable)
    ensures stable && Up(w, i) ==> Up(after, i)
    ensures report.Done? ==> after.members[i].envelope.Missing?
  {
    DriftEvolves(w, before, stable);
    if after != before {
      ServerGoneEvolves(w, before, i, Missing, stable);
      ServerGoneIsLineal(before, i, Missing);
      LinealTrans(w, before, after);
    }
  }

  lemma RunStep(w: World, before: World, stableIP: seq<nat>, i: Id, report: Report, after: World, stable: bool)
    requires |stableIP| == 4
    requires Drift(w, before, stable) && Outcome(before, stableIP, RunServer(i), report, after)
    ensures Evolved(w, after, {i}, {}, stable) && after.helpers == before.helpers
    ensures report.Done? ==> !after.members[i].envelope.Missing? && !Up(w, i)
    ensures stable && Up(w, i) ==> Up(after, i)
    ensures (Coherent(w) ==> Coherent(after)) && LineagesKept(w, after, 0)
    ensures forall cleared: set<int> :: Rejoining(w, cleared) && (i == SEED || i in cleared) ==> Rejoining(after, cleared)
  {
    DriftEvolves(w, before, stable);
    assert Coherent(before) ==> after.members[i].data == before.members[i].data;
    forall cleared: set<int> | Rejoining(before, cleared) && (i == SEED || i in cleared)
      ensures Rejoining(after, cleared)
    {
      assert i == SEED ==> after.members[i].data == before.members[i].data;
    }
  }

  /** A licensed start keeps the guard, and what allowed it. */
  lemma RunGuards(w: World, before: World, after: World, log: seq<Entry>, now: seq<Entry>, call: Call,
                  stableIP: seq<nat>, i: Id, report: Report, stable: bool)
    requires |stableIP| == 4
    requires Drift(w, before, stable) && Outcome(before, stableIP, RunServer(i), report, after)
    requires now == log + [Entry(RunServer(i), before, call)] || now == log
    ensures Guard(w, log, call) && MayStart(w, call) && Licensed(call, i) ==> Guard(after, now, call) && MayStart(after, call)
  {
    hide Outcome, Coherent, Rejoining, OneLineage, Evolved, Drift;
    if Guard(w, log, call) && MayStart(w, call) && Licensed(call, i) {
      RunStep(w, before, stableIP, i, report, after, stable);
      DriftEvolves(w, before, stable);
      assert after.files == before.files && after.lost == before.lost;
      StartableStays(w, after, call, i);
      GuardGrows(w, log, call, RunServer(i), before, after, now, stable);
    }
  }

  lemma StartableStays(w: World, after: World, call: Call, i: Id)
    requires MayStart(w, call) && Licensed(call, i)
    requires Coherent(w) ==> Coherent(after)
    requires forall cleared: set<int> :: Rejoining(w, cleared) && (i == SEED || i in cleared) ==> Rejoining(after, cleared)
    ensures MayStart(after, call) && OneLineage(after)
  {
  }

  /** Every command since then met three volumes of one cluster, and so does whoever looks now. */
  ghost predicate KeptWhole(w: World, log: seq<Entry>, since: nat) {
    Coherent(w) && Mountable(w) && !w.lost && forall k | since <= k < |log| :: Coherent(log[k].before)
  }

  lemma FilesKeepWhole(w: World, files: Files, log: seq<Entry>, since: nat)
    requires files.staging == w.files.staging
    ensures KeptWhole(w, log, since) ==> KeptWhole(w.(files := files), log, since)
  {
  }

  /** The commands that can take a database away, or replace it. */
  predicate Gentle(cmd: Command) {
    !cmd.RunReset? && !cmd.ClearDatabase? && !cmd.DeleteVolume? && cmd != RunHelper(RESET)
  }

  lemma GentleKeepsCoherence(w: World, stableIP: seq<nat>, cmd: Command, report: Report, after: World)
    requires |stableIP| == 4 && Gentle(cmd)
    requires Coherent(w) && Outcome(w, stableIP, cmd, report, after)
    ensures Coherent(after) && (Mountable(w) ==> Mountable(after)) && after.lost == w.lost
  {
  }

  lemma WholeGrows(w: World, log: seq<Entry>, since: nat, stableIP: seq<nat>, cmd: Command, call: Call, report: Report, after: World)
    requires |stableIP| == 4 && Gentle(cmd) && Outcome(w, stableIP, cmd, report, after)
    requires KeptWhole(w, log, since) && since <= |log|
    ensures KeptWhole(after, log + [Entry(cmd, w, call)], since)
  {
    hide Coherent, Outcome, Mountable;
    GentleKeepsCoherence(w, stableIP, cmd, report, after);
  }

  function LastOf(readings: seq<Status>): (r: Option<Status>) {
    if readings == [] then None else Some(readings[|readings| - 1])
  }

  class Host {
    const reliable: bool
    const stable: bool
    const stableIP: seq<nat>
    /** Names that hold, or would hold, something APC does not own. */
    const foreign: set<Resource>
    var w: World
    var up: bool
    ghost var log: seq<Entry>
    ghost var call: Call
    /** The status readings that could be completed, in order. */
    ghost var readings: seq<Status>
    /** What the members' etcd endpoints answered when they were last asked. */
    ghost var reports: Option<Etcd.Reports>
    /** The returns and rollbacks the program set out on, in order, whatever came of them. */
    ghost var efforts: seq<Effort>
    /** While set, volumes that were one cluster's at command number `since` have to stay so. */
    ghost var pledged: bool
    ghost var since: nat

    ghost predicate Valid()
      reads this
    {
      && |stableIP| == 4
      && (forall i, j | 1 <= i < j <= 3 :: stableIP[i] != stableIP[j])
      && (reliable ==> up && stable && foreign == {})
      && (pledged ==> since <= |log| && KeptWhole(w, log, since))
    }

    constructor (world: World, reliable: bool, stable: bool, stableIP: seq<nat>, foreign: set<Resource>)
      requires |stableIP| == 4 && forall i, j | 1 <= i < j <= 3 :: stableIP[i] != stableIP[j]
      requires reliable ==> stable && foreign == {}
      ensures Valid() && w == world && up && log == [] && call == IDLE && !pledged
      ensures this.reliable == reliable && this.stable == stable && this.stableIP == stableIP && this.foreign == foreign
    {
      this.reliable := reliable;
      this.stable := stable;
      this.stableIP := stableIP;
      this.foreign := foreign;
      w := world;
      up := true;
      log := [];
      call := IDLE;
      readings := [];
      reports := None;
      efforts := [];
      pledged := false;
      since := 0;
    }

    /** From here on the volumes are one cluster's, and no operation below may change that. */
    ghost method Pledge()
      requires Valid() && Coherent(w) && Mountable(w) && !w.lost
      modifies this`pledged, this`since
      ensures Valid() && pledged && since == |log|
    {
      pledged, since := true, |log|;
    }

    /** The commands so far become history. */
    ghost method Forget() returns (past: seq<Entry>)
      requires Valid() && !pledged
      modifies this`log
      ensures Valid() && past == old(log) && log == []
    {
      past := log;
      log := [];
    }

    /** The pledge is over; what it kept is known. */
    ghost method Release()
      requires Valid()
      modifies this`pledged
      ensures Valid() && !pledged
    {
      pledged := false;
    }

    ghost predicate Guarded()
      reads this
    {
      Guard(w, log, call)
    }

    ghost predicate Disciplined()
      reads this
    {
      Discipline(w, log)
    }

    /** The two situations in which ordinary servers may be started. */
    ghost predicate Startable()
      reads this
    {
      MayStart(w, call)
    }

    method Environment()
      requires Valid()
      modifies this`w
      ensures Valid()
      ensures Drift(old(w), w, stable)
      ensures reliable ==> w == old(w)
    {
      var next: World := *;
      if !reliable && Drift(w, next, stable) {
        DriftEvolves(w, next, stable);
        w := next;
      }
    }

    /** Time passes while the program waits. */
    method Pause()
      requires Valid()
      modifies this`w
      ensures Valid() && Waited()
    {
      Environment();
      DriftEvolves(old(w), w, stable);
      if reliable {
        RestedDrifts(w, stable);
        DriftEvolves(w, Rested(w), stable);
        w := Rested(w);
      }
    }

    /** The next process on this host; nothing but durable files and the runtime's world survives. */
    method Restart()
      requires Valid()
      modifies this`up
      ensures Valid() && up
    {
      up := true;
    }

    method Issue(cmd: Command) returns (report: Report, ghost before: World)
      requires Valid() && (pledged ==> Gentle(cmd))
      modifies this`w, this`up, this`log
      ensures Valid()
      ensures Drift(old(w), before, stable) && (reliable ==> before == old(w))
      ensures Outcome(before, stableIP, cmd, report, w)
      ensures log == old(log) + [Entry(cmd, before, call)] || (log == old(log) && w == before && !old(up) && !report.Done?)
      ensures up ==> old(up)
      ensures reliable && Possible(old(w), cmd) ==> report.Done? && w == Intended(old(w), stableIP, cmd)
      ensures !up ==> !report.Done?
    {
      Environment();
      before := w;
      report := Rejected;
      NothingIsAnOutcome(w, stableIP, cmd);
      hide Gentle, Outcome, Possible, Intended, KeptWhole, Drift;
      if !up {
        return;
      }
      var next;
      report, next := Answer(cmd);
      if pledged {
        WholeGrows(w, log, since, stableIP, cmd, call, report, next);
      }
      log, w := log + [Entry(cmd, before, call)], next;
      var crash: bool := *;
      if crash && !reliable {
        LostReportIsAnOutcome(before, stableIP, cmd, report, w);
        up, report := false, Rejected;
      }
    }

    /** One of the outcomes the runtime allows; on a fault-free host the intended one, if there is one. */
    method Answer(cmd: Command) returns (report: Report, next: World)
      requires Valid()
      ensures Outcome(w, stableIP, cmd, report, next)
      ensures reliable && Possible(w, cmd) ==> report.Done? && next == Intended(w, stableIP, cmd)
    {
      NothingIsAnOutcome(w, stableIP, cmd);
      if Possible(w, cmd) {
        IntendedIsAnOutcome(w, stableIP, cmd);
      }
      hide Outcome, Possible, Intended, KeptWhole;
      report, next := Rejected, w;
      if reliable {
        if Possible(w, cmd) {
          report, next := Done, Intended(w, stableIP, cmd);
        }
      } else {
        var told: Report, other: World := *, *;
        if Outcome(w, stableIP, cmd, told, other) {
          report, next := told, other;
        }
      }
    }

    // ---- commands -------------------------------------------------------------------------

    method Stop(i: Id) returns (ok: bool)
      requires Valid()
      modifies this`w, this`up, this`log
      ensures Valid() && RetiredOn(i) && (ok ==> up)
      ensures EnvelopeDrift(old(w).members[i].envelope, w.members[i].envelope, false)
      ensures ok ==> !Up(w, i)
      ensures |log| <= |old(log)| + 1 && forall k | |old(log)| <= k < |log| :: log[k].cmd == StopServer(i)
      ensures reliable && !old(w).members[i].envelope.Missing? ==> ok && w == Effect(old(w), StopServer(i))
    {
      hide KeptWhole, Outcome, Coherent;
      var report, before := Issue(StopServer(i));
      StopStep(old(w), before, stableIP, i, report, w, stable);
      OneIsConfined(old(log), log, Entry(StopServer(i), before, call), old(w), {i}, stable);
      if old(Guarded()) {
        GuardGrows(old(w), old(log), call, StopServer(i), before, w, log, stable);
      }
      ok := report.Done?;
    }

    method Delete(i: Id) returns (ok: bool)
      requires Valid()
      modifies this`w, this`up, this`log
      ensures Valid() && RetiredOn(i) && (ok ==> up)
      ensures w.members[i].envelope.Missing? || EnvelopeDrift(old(w).members[i].envelope, w.members[i].envelope, stable)
      ensures stable && Up(old(w), i) ==> Up(w, i)
      ensures ok ==> w.members[i].envelope.Missing?
      ensures forall k | |old(log)| <= k < |log| :: log[k].cmd == DeleteServer(i) && (!Up(old(w), i) ==> !Up(log[k].before, i))
      ensures reliable && old(w).members[i].envelope.Stopped? ==> ok && w == Effect(old(w), DeleteServer(i))
    {
      hide KeptWhole, Outcome, Coherent;
      var report, before := Issue(DeleteServer(i));
      DeleteStep(old(w), before, stableIP, i, report, w, stable);
      OneIsConfined(old(log), log, Entry(DeleteServer(i), before, call), old(w), {i}, stable);
      if old(Guarded()) {
        GuardGrows(old(w), old(log), call, DeleteServer(i), before, w, log, stable);
      }
      ok := report.Done?;
    }

    method Run(i: Id) returns (report: Report)
      requires Valid()
      modifies this`w, this`up, this`log
      ensures Valid() && StartedOn(i) && (report.Done? ==> up)
      ensures report.Done? ==> !w.members[i].envelope.Missing? && !Up(old(w), i)
      ensures stable && Up(old(w), i) ==> Up(w, i)
      ensures Runs(log) <= Runs(old(log)) + 1
      ensures reliable && Possible(old(w), RunServer(i)) ==> report.Done? && w == Intended(old(w), stableIP, RunServer(i))
    {
      ghost var before: World;
      hide KeptWhole, Outcome, Coherent, Possible, Intended, Evolved, Confined, Guard, MayStart, Drift, Rejoining, Licensed;
      report, before := Issue(RunServer(i));
      RunStep(old(w), before, stableIP, i, report, w, stable);
      OneIsConfined(old(log), log, Entry(RunServer(i), before, call), old(w), {i}, stable);
      RunGuards(old(w), before, w, old(log), log, call, stableIP, i, report, stable);
    }

    /** Work on helper containers alone: members, files and lineage stay as they are. */
    twostate predicate HelpedWith(helpers: set<int>)
      reads this
    {
      && (up ==> old(up)) && call == old(call)
      && Evolved(old(w), w, {}, helpers, stable) && Lineal(old(w), w)
      && Confined(old(log), log, old(w), {}, stable)
      && (old(Disciplined()) ==> Disciplined())
    }

    method StartHelper(k: int) returns (ok: bool)
      requires Valid() && 0 <= k <= 3 && k != RESET
      modifies this`w, this`up, this`log
      ensures Valid() && HelpedWith({k}) && (ok ==> up)
      ensures forall n | |old(log)| <= n < |log| ::
                log[n].cmd == RunHelper(k) && (old(w).helpers[k].Missing? ==> log[n].before.helpers[k].Missing?)
      ensures ok ==> !w.helpers[k].Missing?
      ensures reliable && old(w).helpers[k].Missing? ==> ok && w == Effect(old(w), RunHelper(k))
    {
      hide KeptWhole, Outcome, Coherent;
      var report, before := Issue(RunHelper(k));
      HelperCommandStep(old(w), before, stableIP, RunHelper(k), k, report, w, stable);
      OneIsConfined(old(log), log, Entry(RunHelper(k), before, call), old(w), {}, stable);
      if old(Disciplined()) {
        DisciplineGrows(old(w), old(log), call, RunHelper(k), before, w, log, stable);
      }
      ok := report.Done?;
    }

    method EndHelper(k: int) returns (ok: bool)
      requires Valid() && 0 <= k <= 3
      modifies this`w, this`up, this`log
      ensures Valid() && HelpedWith({k}) && (ok ==> up)
      ensures ok ==> !w.helpers[k].Running?
      ensures old(w).helpers[k].Missing? ==> w.helpers[k].Missing?
      ensures reliable && !old(w).helpers[k].Missing? ==> ok && w == Effect(old(w), StopHelper(k))
    {
      hide KeptWhole, Outcome, Coherent;
      var report, before := Issue(StopHelper(k));
      HelperCommandStep(old(w), before, stableIP, StopHelper(k), k, report, w, stable);
      OneIsConfined(old(log), log, Entry(StopHelper(k), before, call), old(w), {}, stable);
      if old(Disciplined()) {
        DisciplineGrows(old(w), old(log), call, StopHelper(k), before, w, log, stable);
      }
      ok := report.Done?;
    }

    method RemoveHelper(k: int) returns (ok: bool)
      requires Valid() && 0 <= k <= 3
      modifies this`w, this`up, this`log
      ensures Valid() && HelpedWith({k}) && (ok ==> up)
      ensures ok ==> w.helpers[k].Missing?
      ensures old(w).helpers[k].Missing? ==> w.helpers[k].Missing?
      ensures reliable && old(w).helpers[k].Stopped? ==> ok && w == Effect(old(w), DeleteHelper(k))
    {
      hide KeptWhole, Outcome, Coherent;
      var report, before := Issue(DeleteHelper(k));
      HelperCommandStep(old(w), before, stableIP, DeleteHelper(k), k, report, w, stable);
      OneIsConfined(old(log), log, Entry(DeleteHelper(k), before, call), old(w), {}, stable);
      if old(Disciplined()) {
        DisciplineGrows(old(w), old(log), call, DeleteHelper(k), before, w, log, stable);
      }
      ok := report.Done?;
    }

    /** Run the reset helper in the foreground; only Done says that the seed now holds the restored cluster. */
    method Reset() returns (report: Report)
      requires Valid() && !pledged
      modifies this`w, this`up, this`log, this`call
      ensures Valid() && (up ==> old(up)) && (report.Done? ==> up)
      ensures call == old(call).(attempted := true, confirmed := old(call).confirmed || report.Done?)
      ensures Evolved(old(w), w, {}, {RESET}, stable)
      ensures AllDown(old(w)) ==> AllDown(w)
      ensures report.Done? ==> w.members[SEED].data.Lineage? && !w.helpers[RESET].Running?
      ensures old(Guarded()) && AllDown(old(w)) && old(w).files.staging.CompleteStage? ==> Guarded()
      ensures reliable && Possible(old(w), RunReset) ==> report.Done? && w == Intended(old(w), stableIP, RunReset)
    {
      ghost var before: World;
      report, before := Issue(RunReset);
      ResetStep(old(w), before, report, w, stable);
      if old(Guarded()) && AllDown(old(w)) && old(w).files.staging.CompleteStage? {
        DownIsOneLineage(w);
        GuardGrows(old(w), old(log), old(call), RunReset, before, w, log, stable);
      }
      call := call.(attempted := true, confirmed := call.confirmed || report.Done?);
    }

    /** Empty a peer's database through its clearing helper. */
    method Clear(i: Id) returns (ok: bool)
      requires Valid() && !pledged && i != SEED && !Up(w, i)
      modifies this`w, this`up, this`log, this`call
      ensures Valid() && (up ==> old(up)) && (ok ==> up)
      ensures call == Emptied(old(call), i, ok)
      ensures Evolved(old(w), w, {}, {}, stable) && !Up(w, i) && LineagesKept(old(w), w, i)
      ensures ok ==> w.members[i].data.Blank?
      ensures old(Guarded() && call.attempted && call.confirmed && Rejoining(w, call.cleared))
              ==> Guarded() && Rejoining(w, call.cleared)
      ensures reliable && Possible(old(w), ClearDatabase(i)) ==> ok && w == Effect(old(w), ClearDatabase(i))
    {
      hide Rejoining, Guard, Drift, Outcome, Evolved, Possible, Effect, SetData, KeptWhole, LineagesKept, Coherent, Emptied;
      ghost var was := call;
      call := Emptied(was, i, false);
      var report, before := Issue(ClearDatabase(i));
      ok := report.Done?;
      ClearStep(old(w), before, stableIP, i, report, w, stable);
      if old(Guarded() && call.confirmed && Rejoining(w, call.cleared)) {
        ClearGuards(old(w), before, w, old(log), log, was, stableIP, i, report, stable);
      }
      call := Emptied(was, i, ok);
    }

    method MakeNetwork() returns (ok: bool)
      requires Valid()
      modifies this`w, this`up, this`log
      ensures Valid() && (up ==> old(up)) && (ok ==> up)
      ensures Evolved(old(w), w.(network := old(w).network), {}, {}, stable) && Lineal(old(w), w)
      ensures ok ==> w.network
      ensures old(w).network ==> w.network
      ensures Confined(old(log), log, old(w), {}, stable)
      ensures old(Disciplined()) ==> Disciplined()
      ensures reliable && !old(w).network ==> ok && w == Effect(old(w), CreateNetwork)
    {
      hide KeptWhole, OneLineage, Coherent, Rejoining, AllSound, EnvelopeDrift, DataDrift, Confined;
      var report, before := Issue(CreateNetwork);
      NetworkStep(old(w), before, w, stable);
      OneIsConfined(old(log), log, Entry(CreateNetwork, before, call), old(w), {}, stable);
      if old(Disciplined()) {
        DisciplineGrows(old(w), old(log), call, CreateNetwork, before, w, log, stable);
      }
      ok := report.Done?;
    }

    method MakeVolume(i: Id) returns (ok: bool)
      requires Valid()
      modifies this`w, this`up, this`log
      ensures Valid() && (up ==> old(up)) && (ok ==> up)
      ensures w.files == old(w).files && w.network == old(w).network && w.lost == old(w).lost
      ensures forall j | 1 <= j <= 3 :: EnvelopeDrift(old(w).members[j].envelope, w.members[j].envelope, stable)
      ensures forall j | 1 <= j <= 3 :: w.members[j].data.Absent? ==> old(w).members[j].data.Absent?
      ensures forall j | 1 <= j <= 3 && j != i :: w.members[j].data.Absent? <==> old(w).members[j].data.Absent?
      ensures forall k | 0 <= k <= 3 :: HelperUndisturbed(old(w), w, k)
      ensures ok ==> !w.members[i].data.Absent?
      ensures AllDown(old(w)) ==> AllDown(w)
      ensures Confined(old(log), log, old(w), {}, stable)
      ensures old(Guarded()) && RecordedAsCreated(w.files.journal, i) && !Up(old(w), i) ==> Guarded()
      ensures reliable && old(w).members[i].data.Absent? ==> ok && w == Effect(old(w), CreateVolume(i))
    {
      hide Drift, Outcome, Guard, OneLineage, Mountable, Effect, RecordedAsCreated, EnvelopeDrift, Confined;
      var report, before := Issue(CreateVolume(i));
      VolumeEffect(old(w), before, w, stableIP, i, report, stable);
      OneIsConfined(old(log), log, Entry(CreateVolume(i), before, call), old(w), {}, stable);
      if old(Guarded()) && RecordedAsCreated(w.files.journal, i) && !Up(old(w), i) {
        VolumeGuards(old(w), before, w, old(log), log, call, stableIP, i, report, stable);
      }
      ok := report.Done?;
    }

    /** Delete a volume that no envelope mounts. */
    method DropVolume(i: Id) returns (ok: bool)
      requires Valid() && !pledged
      modifies this`w, this`up, this`log
      ensures Valid() && (up ==> old(up)) && (ok ==> up)
      ensures Untouched(old(w), w, stable) && w.network == old(w).network
      ensures forall j | 1 <= j <= 3 && j != i :: w.members[j].data.Absent? <==> old(w).members[j].data.Absent?
      ensures old(w).members[i].data.Absent? ==> w.members[i].data.Absent?
      ensures ok ==> w.members[i].data.Absent?
      ensures Confined(old(log), log, old(w), {}, stable)
      ensures forall k | |old(log)| <= k < |log| :: log[k].cmd == DeleteVolume(i)
      ensures reliable && !old(w).members[i].data.Absent? && old(w).members[i].envelope.Missing?
              ==> ok && w == SetData(old(w), i, Absent)
    {
      hide Outcome, EnvelopeDrift, Confined, Evolved;
      var report, before := Issue(DeleteVolume(i));
      DropStep(old(w), before, w, stableIP, DeleteVolume(i), report, stable);
      OneIsConfined(old(log), log, Entry(DeleteVolume(i), before, call), old(w), {}, stable);
      ok := report.Done?;
    }

    method DropNetwork() returns (ok: bool)
      requires Valid()
      modifies this`w, this`up, this`log
      ensures Valid() && (up ==> old(up)) && (ok ==> up)
      ensures Untouched(old(w), w, stable) && (w.network ==> old(w).network)
      ensures forall j | 1 <= j <= 3 :: w.members[j].data.Absent? <==> old(w).members[j].data.Absent?
      ensures ok ==> !w.network
      ensures Confined(old(log), log, old(w), {}, stable)
      ensures forall k | |old(log)| <= k < |log| :: log[k].cmd == DeleteNetwork
      ensures reliable && old(w).network ==> ok && w == old(w).(network := false)
    {
      hide Outcome, EnvelopeDrift, Confined, Evolved;
      var report, before := Issue(DeleteNetwork);
      DropStep(old(w), before, w, stableIP, DeleteNetwork, report, stable);
      OneIsConfined(old(log), log, Entry(DeleteNetwork, before, call), old(w), {}, stable);
      ok := report.Done?;
    }

    // ---- durable files --------------------------------------------------------------------

    method Write(u: Update) returns (ok: bool)
      requires Valid() && (pledged ==> !u.PutStaging?)
      modifies this`w, this`up, this`call
      ensures Valid() && (up ==> old(up)) && (ok ==> up)
      ensures w == old(w) || w == old(w).(files := Written(old(w).files, u))
      ensures ok ==> w == old(w).(files := Written(old(w).files, u))
      ensures call == old(call).(finishing := old(call).finishing || (u.PutJournal? && u.journal.phase.Completed?),
                                 vouched := if u.PutJournal? && RuntimeSafe(u.journal) then LastOf(readings) else old(call).vouched)
      ensures reliable ==> ok
      ensures !old(up) ==> w == old(w)
    {
      var next := w.(files := Written(w.files, u));
      if pledged {
        FilesKeepWhole(w, next.files, log, since);
      }
      hide KeptWhole, Written, RuntimeSafe;
      call := call.(finishing := call.finishing || (u.PutJournal? && u.journal.phase.Completed?),
                    vouched := if u.PutJournal? && RuntimeSafe(u.journal) then LastOf(readings) else call.vouched);
      if !up {
        return false;
      }
      if reliable {
        w := next;
        return true;
      }
      var applied: bool, told: bool, crash: bool := *, *, *;
      if applied {
        w := next;
      }
      if crash {
        up := false;
      }
      ok := applied && told && !crash;
    }

    // ---- observations ---------------------------------------------------------------------

    /** What an observation leaves behind: the outside world moved, nothing was asked of it. */
    twostate predicate OnlyWatched()
      reads this
    {
      && up == old(up) && log == old(log) && call == old(call) && old(readings) <= readings
      && Watched(old(w), w, stable)
      && (reliable ==> w == old(w))
    }

    /** What waiting leaves behind: on a fault-free host servers that were starting have become ready. */
    twostate predicate Waited()
      reads this
    {
      && up == old(up) && log == old(log) && call == old(call) && old(readings) <= readings
      && Watched(old(w), w, stable)
      && (reliable ==> w == Rested(old(w)))
    }

    /** Work on the envelope of member i alone. */
    twostate predicate WorkedOn(i: int)
      reads this
    {
      && (up ==> old(up)) && call == old(call)
      && Evolved(old(w), w, {i}, {}, stable)
      && Confined(old(log), log, old(w), {i}, stable)
    }

    /** Work on the envelope of member i alone that starts nothing. */
    twostate predicate RetiredOn(i: int)
      reads this
    {
      && WorkedOn(i) && Lineal(old(w), w)
      && Runs(log) <= Runs(old(log))
      && (old(Guarded()) ==> Guarded())
    }

    /** Work on the envelope of member i that may start it, if the operation is licensed to. */
    twostate predicate StartedOn(i: int)
      reads this
    {
      && 1 <= i <= 3
      && WorkedOn(i)
      && (old(Guarded() && Startable()) && Licensed(call, i) ==> Guarded() && Startable())
      && (Coherent(old(w)) ==> Coherent(w)) && LineagesKept(old(w), w, 0)
    }

    method Inspect(i: Id) returns (ok: bool, e: Envelope)
      requires Valid()
      modifies this`w
      ensures Valid() && OnlyWatched()
      ensures ok ==> up && e == w.members[i].envelope && (e.Missing? || EnvelopeOf(i) !in foreign)
      ensures reliable ==> ok
    {
      Environment();
      DriftEvolves(old(w), w, stable);
      var told: bool := *;
      e := w.members[i].envelope;
      ok := up && (reliable || told) && (e.Missing? || EnvelopeOf(i) !in foreign);
    }

    method InspectHelper(k: int) returns (ok: bool, e: Envelope)
      requires Valid() && 0 <= k <= 3
      modifies this`w
      ensures Valid() && OnlyWatched()
      ensures ok ==> up && e == w.helpers[k] && (e.Missing? || HelperOf(k) !in foreign)
      ensures reliable ==> ok
    {
      Environment();
      DriftEvolves(old(w), w, stable);
      var told: bool := *;
      e := w.helpers[k];
      ok := up && (reliable || told) && (e.Missing? || HelperOf(k) !in foreign);
    }

    method InspectNetwork() returns (ok: bool, present: bool)
      requires Valid()
      modifies this`w
      ensures Valid() && OnlyWatched()
      ensures ok ==> up && present == w.network && (present ==> Network !in foreign)
      ensures reliable ==> ok
    {
      Environment();
      DriftEvolves(old(w), w, stable);
      var told: bool := *;
      present := w.network;
      ok := up && (reliable || told) && (present ==> Network !in foreign);
    }

    method InspectVolume(i: Id) returns (ok: bool, present: bool)
      requires Valid()
      modifies this`w
      ensures Valid() && OnlyWatched()
      ensures ok ==> up && present == !w.members[i].data.Absent? && (present ==> VolumeOf(i) !in foreign)
      ensures reliable ==> ok
    {
      Environment();
      DriftEvolves(old(w), w, stable);
      var told: bool := *;
      present := !w.members[i].data.Absent?;
      ok := up && (reliable || told) && (present ==> VolumeOf(i) !in foreign);
    }

    /** Ask one server for its node and API state; only a running server with a database answers. */
    method Probe(i: Id) returns (node: bool, api: bool)
      requires Valid()
      modifies this`w
      ensures Valid() && OnlyWatched()
      ensures node ==> up && Up(w, i) && w.members[i].data.Lineage?
      ensures api ==> up && Up(w, i)
      ensures reliable ==> node == api == (Up(w, i) && w.members[i].envelope.ready && w.members[i].data.Lineage?)
    {
      Environment();
      DriftEvolves(old(w), w, stable);
      node, api := *, *;
      if reliable {
        node := Up(w, i) && w.members[i].envelope.ready && w.members[i].data.Lineage?;
        api := node;
      }
      node := node && up && Up(w, i) && w.members[i].data.Lineage?;
      api := api && up && Up(w, i);
    }
  }
}
