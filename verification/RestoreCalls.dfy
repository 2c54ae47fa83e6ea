/**
One whole restore call over a validated package: open the journal, run the phases, and, when
anything fails after the first mutation, roll back and record how that ended.
 */
module RestoreCalls {
  import opened Options
  import opened Journals
  import opened Worlds
  import opened Hosts
  import opened Intents
  import opened Envelopes
  import opened Statuses
  import opened Revivals
  import opened Helpers
  import opened Resets
  import opened Restores
  import opened Rollbacks

  /** What the deferred rollback records; a completion time already set stays set. */
  function Failure(base: Journal, stamped: bool, recovered: bool): (r: Journal) {
    base.(phase := Phase.Failed, attempted := true, succeeded := recovered, completedAt := stamped)
  }

  /** The journals that belong to one call. */
  predicate OfCall(file: Option<Journal>, base: Journal) {
    || InFlight(file, base)
    || file == Some(Completion(base))
    || (exists stamped: bool, recovered: bool :: file == Some(Failure(base, stamped, recovered)))
  }

  /** The file is what the call found, or one of its own journals. */
  predicate JournalLeft(was: Option<Journal>, now: Option<Journal>, base: Journal) {
    now == was || OfCall(now, base)
  }

  /** A journal that lets the supervisor in, or says that all members rejoined, is backed by three volumes of one cluster. */
  ghost predicate Backed(w: World) {
    AllowsSupervision(w.files.journal) || AtVerifying(w.files.journal) ==> Coherent(w)
  }

  /** The journal left is backed, unless it is still the one that was found over volumes it never spoke for. */
  ghost predicate Answerable(w: World, after: World) {
    after.files.journal != w.files.journal || Backed(w) ==> Backed(after)
  }

  function NewMembers(base: Journal): (r: set<int>) {
    CreatedIds(base.provenance)
  }

  function FreshProgress(base: Journal): (r: Progress) {
    Progress(false, false, false, NewMembers(base), {})
  }

  predicate Fresh(base: Journal) {
    FreshJournal(base) && base.phase.Validated?
  }

  /** A call over volumes it created begins only behind a closed journal, any other not after a total loss. */
  ghost predicate MayBegin(w: World, base: Journal) {
    if NewMembers(base) != {} then Blocking(w.files.journal) else !w.lost
  }

  /** The call begins on volumes that are not one cluster's, and has no record of having created any. */
  ghost predicate Mixed(w: World, base: Journal) {
    NewMembers(base) == {} && !Coherent(w)
  }

  /** What one call starts with. */
  ghost function Begun(w: World, base: Journal): (r: Call) {
    IDLE.(created := NewMembers(base) != {}, mixed := Mixed(w, base))
  }

  twostate predicate Opened(h: Host, base: Journal)
    reads h
  {
    && (h.up ==> old(h.up)) && h.log == old(h.log)
    && h.w == old(h.w).(files := old(h.w).files.(journal := h.w.files.journal, desired := h.w.files.desired))
    && (h.w.files.journal == old(h.w).files.journal || h.w.files.journal == Some(base))
    && (ReadableIntent(old(h.w).files) ==> ReadableIntent(h.w.files))
    && h.call == Begun(old(h.w), base)
    && (h.w.files.desired != old(h.w).files.desired ==> h.w.files.journal == Some(base))
  }

  /** The nonterminal journal is durable before the intent changes and before any member is touched. */
  method OpenRestore(h: Host, base: Journal) returns (ok: bool)
    requires h.Valid() && Fresh(base)
    modifies h`w, h`up, h`call
    ensures h.Valid() && (ok ==> h.up) && Opened(h, base)
    ensures ok ==> h.w.files.journal == Some(base)
    ensures h.reliable && ReadableIntent(old(h.w).files) ==> ok
  {
    hide KeptWhole, Begun, ValidDesired, Coherent;
    h.call := Begun(h.w, base);
    assert !RuntimeSafe(base) && !base.phase.Completed?;
    ok := h.Write(PutJournal(base));
    if !ok {
      return;
    }
    ok := MarkClusterRunning(h);
    var expired: bool := *;
    ok := ok && (h.reliable || !expired);
  }

  lemma OpenedIsOnTrack(w: World, log: seq<Entry>, after: World, call: Call, base: Journal)
    requires Discipline(w, log) && MayBegin(w, base) && Fresh(base)
    requires after == w.(files := w.files.(journal := Some(base), desired := after.files.desired))
    requires call == Begun(w, base)
    ensures Track(after, log, call, FreshProgress(base)) && InFlight(after.files.journal, base)
  {
    hide AllSound, Blocking;
    InFlightBlocks(after.files.journal, base);
  }

  lemma OpenedIsHarmless(w: World, log: seq<Entry>, after: World, base: Journal)
    requires Discipline(w, log) && MayBegin(w, base) && Fresh(base)
    requires after == w.(files := w.files.(journal := after.files.journal, desired := after.files.desired))
    requires after.files.journal == w.files.journal || after.files.journal == Some(base)
    ensures Discipline(after, log) && Answerable(w, after)
    ensures Marked(after, Begun(w, base))
    ensures JournalLeft(w.files.journal, after.files.journal, base)
  {
  }

  /** The call's phases, from the stop of the first member to the last journal write. */
  method RunPhases(h: Host, base: Journal, pf: Preflight, progress: Progress, ghost c: nat)
    returns (ok: bool, p: Progress, stamped: bool)
    requires h.Valid() && !h.pledged && Fresh(base) && progress == FreshProgress(base).(mutationStarted := true)
    requires OnTrack(h, progress) && Seen(pf, h.w, h.stable) && h.w.files.staging.CompleteStage?
    requires h.call.cleared == {} && InFlight(h.w.files.journal, base)
    modifies h`readings, h`w, h`up, h`log, h`call
    ensures h.Valid() && (ok ==> h.up) && (h.up ==> old(h.up)) && SameGround(old(h.w), h.w)
    ensures OnTrack(h, p) && h.call.finishing == stamped && h.call.mixed == old(h.call.mixed) && h.call.created == old(h.call.created)
    ensures InFlight(h.w.files.journal, base) || (stamped && Concluded(h.w, base))
    ensures stamped && h.stable ==> AllUp(h.w)
    ensures stamped ==> Vouched(h.call)
    ensures ok ==> Concluded(h.w, base) && h.w.files.kubeconfig
    ensures h.reliable && Prepared(old(h.w)) && SeenExactly(pf, old(h.w)) && c == old(h.w).nextCluster
            ==> ok && SmoothAt(h.w, h.stableIP, 3, c)
  {
    hide Track, SmoothAt, InFlight, Seen, SeenExactly, Prepared, Concluded, AllUp, NewMembers;
    stamped := false;
    assert 2 !in progress.cleared;
    NotYetFinishing(h.w, h.log, h.call, progress);
    ok, p := RestoreSeed(h, base, pf, progress, c);
    if ok {
      ok, p, stamped := RestorePeers(h, base, p, c);
    }
  }

  lemma BlockedOrCoherent(w: World, log: seq<Entry>, call: Call, p: Progress)
    requires Track(w, log, call, p)
    ensures Discipline(w, log) && Backed(w) && Marked(w, call)
  {
    hide AllSound;
  }

  /** What a call leaves behind, success or not. */
  twostate predicate CallLeaves(h: Host, base: Journal)
    reads h
  {
    && (h.up ==> old(h.up)) && SameGround(old(h.w), h.w)
    && (!h.call.strayed ==> h.Disciplined() && Answerable(old(h.w), h.w) && Marked(h.w, h.call))
    && (h.call.strayed ==> h.call.mixed && !h.call.attempted)
    && JournalLeft(old(h.w).files.journal, h.w.files.journal, base)
    && (h.w.files.journal != old(h.w).files.journal && AllowsSupervision(h.w.files.journal)
        ==> Vouched(h.call) && (h.stable ==> AllUp(h.w)))
  }

  /** Roll back and record how that went. */
  method FailRestore(h: Host, base: Journal, stamped: bool, p: Progress, ghost c: nat)
    requires h.Valid() && !h.pledged && Fresh(base) && OnTrack(h, p) && h.call.finishing == stamped
    requires InFlight(h.w.files.journal, base) || (stamped && Concluded(h.w, base))
    requires stamped ==> Vouched(h.call) && (h.stable ==> AllUp(h.w))
    modifies h`readings, h`efforts, h`w, h`up, h`log, h`call
    ensures h.Valid() && (h.up ==> old(h.up)) && SameGround(old(h.w), h.w)
    ensures !h.call.strayed ==> h.Disciplined() && Backed(h.w) && Marked(h.w, h.call)
    ensures OfCall(h.w.files.journal, base) && h.call.mixed == old(h.call.mixed) && h.call.created == old(h.call.created)
    ensures h.call.strayed ==> h.call.mixed && !h.call.attempted
    ensures h.efforts == old(h.efforts) + [RollingBack]
    ensures stamped && h.stable ==> ServersLeftAlone(old(h.log), h.log)
    ensures AllowsSupervision(h.w.files.journal) ==> Vouched(h.call) && (h.stable ==> AllUp(h.w))
    ensures h.reliable && p.resetAttempted && !p.resetComplete
            ==> h.w.files.journal == Some(Failure(base, stamped, false)) && AllDown(h.w)
                && h.w == Unhelped(old(h.w)).(files := h.w.files)
    ensures h.reliable && Untried(p) && Reviving(Unhelped(old(h.w)), h.stableIP, 1)
            ==> h.w.files.journal == Some(Failure(base, stamped, true)) && AllHealthy(h.w) && SameData(Unhelped(old(h.w)), h.w)
    ensures h.reliable && p.resetComplete && Carried(Unhelped(old(h.w)), h.stableIP, 1, p.cleared, c)
            ==> h.w.files.journal == Some(Failure(base, stamped, true)) && OnCluster(h.w, c)
  {
    hide KeptWhole;
    hide Track, Coherent, SameGround, Discipline, OneLineage, Reviving, Carried, Marked, Unhelped, AllHealthy, OnCluster, SameData, ServersLeftAlone;
    InFlightOrFinished(h.w, h.call, base);
    StillOpen(h.w, h.log, h.call, p);
    var recovered := Rollback(h, p, c);
    ghost var w1, call1 := h.w, h.call;
    SaveFailure(h, base, stamped, recovered);
    MembersDecide(w1, h.w, Unhelped(old(h.w)), c);
    SameGroundJournal(old(h.w), w1, h.w);
  }

  /** Health and volumes are a matter of the members alone. */
  lemma MembersDecide(w: World, after: World, was: World, c: nat)
    requires after == w.(files := after.files)
    ensures AllHealthy(w) ==> AllHealthy(after)
    ensures OnCluster(w, c) ==> OnCluster(after, c)
    ensures SameData(was, w) ==> SameData(was, after)
  {
  }

  lemma CoherentIsBacked(w: World)
    requires AtVerifying(w.files.journal) ==> Coherent(w)
    ensures Blocking(w.files.journal) || Coherent(w) ==> Backed(w)
  {
  }

  lemma FailureFacts(base: Journal, stamped: bool, recovered: bool)
    ensures var j := Failure(base, stamped, recovered);
            && OfCall(Some(j), base) && !j.phase.Completed?
            && (RuntimeSafe(j) <==> recovered) && (AllowsSupervision(Some(j)) ==> recovered && !stamped)
  {
  }

  /** The last write of a failed call. */
  method SaveFailure(h: Host, base: Journal, stamped: bool, recovered: bool)
    requires h.Valid() && Fresh(base) && h.call.finishing == stamped
    requires !h.call.strayed ==> h.Disciplined() && Marked(h.w, h.call) && (recovered || AtVerifying(h.w.files.journal) ==> Coherent(h.w))
    requires (Blocking(h.w.files.journal) || stamped) && (stamped ==> Coherent(h.w)) && OfCall(h.w.files.journal, base)
    requires stamped ==> Vouched(h.call) && (h.stable ==> AllUp(h.w))
    requires recovered ==> AllSeenReady(h) && (h.stable ==> AllUp(h.w))
    modifies h`w, h`up, h`call
    ensures h.Valid() && (h.up ==> old(h.up)) && h.call == old(h.call).(vouched := h.call.vouched)
    ensures h.w == old(h.w).(files := old(h.w).files.(journal := h.w.files.journal))
    ensures !h.call.strayed ==> h.Disciplined() && Backed(h.w) && Marked(h.w, h.call)
    ensures OfCall(h.w.files.journal, base)
    ensures AllowsSupervision(h.w.files.journal) ==> Vouched(h.call) && (h.stable ==> AllUp(h.w))
    ensures h.reliable ==> h.w.files.journal == Some(Failure(base, stamped, recovered))
  {
    var j := Failure(base, stamped, recovered);
    SavedFailure(h.w, h.w, h.log, h.call, base, stamped, recovered, LastOf(h.readings), h.stable);
    SavedFailure(h.w, Journaled(h.w, j), h.log, h.call, base, stamped, recovered, LastOf(h.readings), h.stable);
    assert !j.phase.Completed?;
    hide KeptWhole, Discipline, Coherent, Marked, AllUp, OfCall, Failure, Blocking, AllowsSupervision, RuntimeSafe, Fresh, Backed, AllReady,
         Vouched, AtVerifying;
    var saved := SaveJournal(h, j);
  }

  /** Whether or not the last journal of a failed call reached the disk, it is true. */
  lemma SavedFailure(w: World, after: World, log: seq<Entry>, call: Call, base: Journal, stamped: bool, recovered: bool,
                     last: Option<Status>, stable: bool)
    requires call.finishing == stamped && (stamped ==> Coherent(w) && Vouched(call) && (stable ==> AllUp(w)))
    requires !call.strayed ==> Discipline(w, log) && Marked(w, call) && (recovered || AtVerifying(w.files.journal) ==> Coherent(w))
    requires (Blocking(w.files.journal) || stamped) && OfCall(w.files.journal, base)
    requires recovered ==> last.Some? && AllReady(last.value) && (stable ==> AllUp(w))
    requires after == w || after == w.(files := w.files.(journal := Some(Failure(base, stamped, recovered))))
    ensures var now := call.(vouched := if RuntimeSafe(Failure(base, stamped, recovered)) then last else call.vouched);
            && (!call.strayed ==> Discipline(after, log) && Backed(after) && Marked(after, now))
            && OfCall(after.files.journal, base)
            && (AllowsSupervision(after.files.journal) ==> Vouched(now) && (stable ==> AllUp(after)))
  {
    hide OfCall, Failure, Trusted, RuntimeSafe, AllReady, Coherent;
    FailureFacts(base, stamped, recovered);
    if !call.strayed {
      CoherentIsBacked(w);
      FailureIsHarmless(w, after, log, call, base, stamped, recovered);
    }
  }

  lemma InFlightOrFinished(w: World, call: Call, base: Journal)
    requires FreshJournal(base)
    requires InFlight(w.files.journal, base) || (call.finishing && Concluded(w, base))
    ensures Blocking(w.files.journal) || call.finishing
    ensures !call.finishing ==> OfCall(w.files.journal, base)
    ensures OfCall(w.files.journal, base)
  {
  }

  lemma FailureIsHarmless(w: World, after: World, log: seq<Entry>, call: Call, base: Journal, stamped: bool, recovered: bool)
    requires Discipline(w, log) && Backed(w) && Marked(w, call)
    requires recovered ==> Coherent(w)
    requires after == w || after == w.(files := w.files.(journal := Some(Failure(base, stamped, recovered))))
    ensures Discipline(after, log) && Backed(after)
    ensures forall v :: Marked(after, call.(vouched := v))
  {
    hide AllSound;
  }

  /** The call's own journal is announced; from here on a failure is rolled back. */
  method Mutate(h: Host, base: Journal, pf: Preflight, progress: Progress) returns (ok: bool)
    requires h.Valid() && !h.pledged && Fresh(base) && progress == FreshProgress(base).(mutationStarted := true)
    requires OnTrack(h, progress) && Seen(pf, h.w, h.stable) && h.w.files.staging.CompleteStage?
    requires h.call.cleared == {} && InFlight(h.w.files.journal, base)
    modifies h`readings, h`efforts, h`w, h`up, h`log, h`call
    ensures h.Valid() && (ok ==> h.up) && CallLeaves(h, base)
    ensures ok ==> Concluded(h.w, base) && h.w.files.kubeconfig
    ensures h.efforts == old(h.efforts) + (if ok then [] else [RollingBack])
    ensures (h.call.strayed ==> !ok) && h.call.mixed == old(h.call.mixed) && h.call.created == old(h.call.created)
    ensures h.reliable && Prepared(old(h.w)) && SeenExactly(pf, old(h.w))
            ==> ok && SmoothAt(h.w, h.stableIP, 3, old(h.w).nextCluster)
  {
    hide Track, Coherent, AllUp, Discipline, SmoothAt, Seen, SeenExactly, Prepared, Fresh, Blocking, OfCall, KeptWhole, Marked, Vouched, SameGround;
    var p, stamped;
    ok, p, stamped := RunPhases(h, base, pf, progress, h.w.nextCluster);
    if ok {
      ConcludedIsOfCall(h.w, h.log, h.call, base, p);
    } else {
      ghost var w1 := h.w;
      FailRestore(h, base, stamped, p, h.w.nextCluster);
      SameGroundTrans(old(h.w), w1, h.w);
    }
  }

  lemma ConcludedIsOfCall(w: World, log: seq<Entry>, call: Call, base: Journal, p: Progress)
    requires Track(w, log, call, p) && Concluded(w, base)
    ensures Discipline(w, log) && Backed(w) && OfCall(w.files.journal, base) && Marked(w, call)
  {
  }

  /** Announce the first stop, then do it. */
  method Announce(h: Host, base: Journal, pf: Preflight) returns (ok: bool)
    requires h.Valid() && !h.pledged && Fresh(base) && OnTrack(h, FreshProgress(base)) && Seen(pf, h.w, h.stable)
    requires h.w.files.staging.CompleteStage? && h.call.cleared == {} && InFlight(h.w.files.journal, base)
    modifies h`readings, h`efforts, h`w, h`up, h`log, h`call
    ensures h.Valid() && (ok ==> h.up) && CallLeaves(h, base)
    ensures ok ==> Concluded(h.w, base) && h.w.files.kubeconfig
    ensures !ok && h.log != old(h.log) ==> h.efforts == old(h.efforts) + [RollingBack]
    ensures h.call.mixed == old(h.call.mixed) && h.call.created == old(h.call.created)
    ensures h.call.strayed ==> !ok && h.efforts == old(h.efforts) + [RollingBack]
    ensures h.reliable && Prepared(old(h.w)) && SeenExactly(pf, old(h.w))
            ==> ok && SmoothAt(h.w, h.stableIP, 3, old(h.w).nextCluster)
  {
    hide Track, Coherent, AllUp, Discipline, SmoothAt, KeptWhole, Marked, SameGround, OfCall, Vouched, Trusted, RuntimeSafe;
    var p := FreshProgress(base);
    BlockedOrCoherent(h.w, h.log, h.call, p);
    ok := UpdatePhase(h, base, StoppingMembers, p);
    BlockedOrCoherent(h.w, h.log, h.call, p);
    SameGroundNothing(old(h.w));
    SameGroundJournal(old(h.w), old(h.w), h.w);
    MutationStartedIsOnTrack(h.w, h.log, h.call, p);
    InFlightIsOfCall(old(h.w), h.w, base);
    if ok {
      p := p.(mutationStarted := true);
      SeenWhateverFiles(pf, old(h.w), h.w, h.stable);
      ghost var w1 := h.w;
      ok := Mutate(h, base, pf, p);
      LeftLater(old(h.w), w1, h.w, base);
    }
  }

  lemma InFlightIsOfCall(w: World, after: World, base: Journal)
    requires FreshJournal(base) && InFlight(w.files.journal, base) && InFlight(after.files.journal, base) && Backed(after)
    ensures JournalLeft(w.files.journal, after.files.journal, base) && Blocking(after.files.journal)
    ensures Answerable(w, after)
  {
    InFlightBlocks(after.files.journal, base);
  }

  lemma LeftLater(found: World, w: World, after: World, base: Journal)
    requires FreshJournal(base) && InFlight(found.files.journal, base) && InFlight(w.files.journal, base)
    requires SameGround(found, w) && SameGround(w, after) && JournalLeft(w.files.journal, after.files.journal, base) && Backed(w)
    ensures SameGround(found, after) && JournalLeft(found.files.journal, after.files.journal, base)
    ensures Answerable(w, after) ==> Answerable(found, after)
    ensures AllowsSupervision(after.files.journal) ==> after.files.journal != w.files.journal
  {
    InFlightBlocks(w.files.journal, base);
    SameGroundTrans(found, w, after);
  }

  lemma MutationStartedIsOnTrack(w: World, log: seq<Entry>, call: Call, p: Progress)
    requires Track(w, log, call, p)
    ensures Track(w, log, call, p.(mutationStarted := true))
  {
  }

  lemma SeenWhateverFiles(pf: Preflight, w: World, after: World, stable: bool)
    requires after == w.(files := after.files)
    ensures Seen(pf, w, stable) ==> Seen(pf, after, stable)
    ensures SeenExactly(pf, w) ==> SeenExactly(pf, after)
  {
    forall i | 1 <= i <= 3 && Seen(pf, w, stable) ensures MemberSeen(pf, after, i, stable) {
      assert MemberSeen(pf, w, i, stable);
    }
  }

  /**
  The restore sequence. Whatever fails, and wherever the process dies, every command issued was
  sound and only a cluster of one lineage lets the supervisor in, unless the call began on volumes
  of different clusters and was rolled back before it ever issued its own reset.
   */
  method RestoreValidated(h: Host, base: Journal, pf: Preflight) returns (ok: bool)
    requires h.Valid() && !h.pledged && h.Disciplined() && Fresh(base) && MayBegin(h.w, base)
    requires Seen(pf, h.w, h.stable) && h.w.files.staging.CompleteStage?
    modifies h`readings, h`efforts, h`w, h`up, h`log, h`call
    ensures h.Valid() && (ok ==> h.up) && CallLeaves(h, base)
    ensures ok ==> Concluded(h.w, base) && h.w.files.kubeconfig
    ensures !ok && h.log != old(h.log) ==> h.efforts == old(h.efforts) + [RollingBack]
    ensures h.call.mixed == Mixed(old(h.w), base) && (h.call.created <==> NewMembers(base) != {})
    ensures h.w.files.desired != old(h.w).files.desired ==> OfCall(h.w.files.journal, base)
    ensures h.call.strayed ==> !ok && h.efforts == old(h.efforts) + [RollingBack]
    ensures h.reliable && Prepared(old(h.w)) && SeenExactly(pf, old(h.w)) && ReadableIntent(old(h.w).files)
            ==> ok && SmoothAt(h.w, h.stableIP, 3, old(h.w).nextCluster)
  {
    hide Track, Coherent, AllUp, Discipline, SmoothAt;
    ok := OpenRestore(h, base);
    OpenedIsHarmless(old(h.w), h.log, h.w, base);
    if ok {
      OpenedIsOnTrack(old(h.w), h.log, h.w, h.call, base);
      SeenWhateverFiles(pf, old(h.w), h.w, h.stable);
      ok := Announce(h, base, pf);
    }
  }
}
