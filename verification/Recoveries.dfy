/**
RecoverHA: rebuild a lost cluster from a trusted package. It may start from an empty host, from
an interrupted recovery of the same package, or from a saved configuration; everything it is
about to create is recorded in the journal first.
 */
module Recoveries {
  import opened Options
  import opened Journals
  import opened Worlds
  import opened Hosts
  import opened Intents
  import opened Envelopes
  import opened Statuses
  import opened Helpers
  import opened Restores
  import opened Rollbacks
  import opened RestoreCalls

  /** A snapshot package; `valid` says that its contents pass every check against the trusted digest. */
  datatype Package = Package(identity: string, path: string, token: nat, valid: bool)

  /** What the checks before the first write found. */
  datatype Plan = Plan(pf: Preflight, created: set<int>, tokenMissing: bool, configMissing: bool)

  function BaseOf(pkg: Package, created: set<int>): (r: Journal) {
    Journal(pkg.identity, pkg.path, Validated, false, false, false, Some(PartitionOf(created)))
  }

  predicate Empty(w: World) {
    !w.network && NoEnvelopes(w) && NoVolumes(w)
  }

  predicate StoppedIntent(f: Files) {
    f.desired.Some? && ValidDesired(f.desired.value) && !f.desired.value.running
  }

  /** The journal of an interrupted recovery of this package, as a retry may go on from it. */
  predicate Resumable(f: Files, pkg: Package) {
    && f.journal.Some? && Trusted(f.journal.value) && !RuntimeSafe(f.journal.value)
    && f.journal.value.identity == pkg.identity && f.journal.value.snapshot == pkg.path
    && (!f.config ==> StoppedIntent(f))
  }

  method LoadRetry(h: Host, pkg: Package) returns (ok: bool, retry: Option<Journal>)
    ensures ok ==> h.up
    ensures ok && retry.Some? ==> Resumable(h.w.files, pkg) && h.w.files.journal == retry
    ensures ok && retry.None? ==> h.w.files.journal.None? || (h.w.files.config && AllowsSupervision(h.w.files.journal))
    ensures h.up && Resumable(h.w.files, pkg) ==> ok
    ensures h.up && (h.w.files.journal.None? || (h.w.files.config && AllowsSupervision(h.w.files.journal))) ==> ok
  {
    retry := None;
    if !h.up || h.w.files.journal.None? {
      return h.up, None;
    }
    var j := h.w.files.journal.value;
    if !Trusted(j) {
      return false, None;
    }
    if RuntimeSafe(j) {
      return h.w.files.config, None;
    }
    if j.identity != pkg.identity || j.snapshot != pkg.path {
      return false, None;
    }
    if !h.w.files.config {
      var loaded, d := LoadDesired(h);
      if h.w.files.desired.None? || !loaded || d.running {
        return false, None;
      }
    }
    return true, Some(j);
  }

  method AnyRecord(pf: Preflight) returns (found: bool)
    requires Shaped(pf)
    ensures found <==> exists i | 1 <= i <= 3 :: !pf.records[i].Missing?
  {
    found := false;
    for i := 1 to 4
      invariant found <==> exists j | 1 <= j < i :: !pf.records[j].Missing?
    {
      if !pf.records[i].Missing? {
        found := true;
      }
    }
  }

  predicate NoRecord(pf: Preflight)
    requires Shaped(pf)
  {
    pf.records[1].Missing? && pf.records[2].Missing? && pf.records[3].Missing?
  }

  /** The saved token must be this package's, if there is one. */
  method CheckToken(h: Host, pkg: Package) returns (ok: bool, missing: bool)
    ensures ok <==> h.up && (h.w.files.token.None? || h.w.files.token == Some(pkg.token))
    ensures ok ==> (missing <==> h.w.files.token.None?)
  {
    missing := h.w.files.token.None?;
    ok := h.up && (missing || h.w.files.token.value == pkg.token);
  }

  /** A host without configuration and journal must hold nothing of a cluster of this name. */
  method CheckEmptyHost(h: Host, pf: Preflight) returns (ok: bool)
    requires Shaped(pf)
    ensures ok <==> && h.up && h.w.files.token.None? && !h.w.files.kubeconfig
                    && (h.w.files.desired.None? || StoppedIntent(h.w.files))
                    && !pf.network && VolumeCount(pf) == 0 && NoRecord(pf)
  {
    if !h.up || !h.w.files.token.None? || h.w.files.kubeconfig {
      return false;
    }
    if h.w.files.desired.Some? {
      var loaded, d := LoadDesired(h);
      if !loaded || d.running {
        return false;
      }
    }
    var volumes := VolumeCount(pf);
    var found := AnyRecord(pf);
    return !pf.network && volumes == 0 && !found;
  }

  /** Everything a plan promises about the world it was made for. */
  predicate Sensible(plan: Plan, w: World, pkg: Package, stable: bool) {
    && Seen(plan.pf, w, stable)
    && plan.created == Created(w.files, plan.pf)
    && (NoRecord(plan.pf) || (plan.pf.network && VolumeCount(plan.pf) == 3))
    && (if plan.tokenMissing then w.files.token.None? else w.files.token == Some(pkg.token))
    && (plan.configMissing <==> !w.files.config)
    && (plan.configMissing && w.files.journal.None?
        ==> w.files.token.None? && !w.files.kubeconfig && (w.files.desired.None? || StoppedIntent(w.files))
            && !plan.pf.network && VolumeCount(plan.pf) == 0 && NoRecord(plan.pf))
    && (w.files.journal.Some? ==> AllowsSupervision(w.files.journal) || Resumable(w.files, pkg))
    && (w.files.journal.Some? && AllowsSupervision(w.files.journal) ==> w.files.config)
  }

  /** The members an unfinished recovery recorded as created. */
  function PriorCreated(file: Option<Journal>): (r: set<int>) {
    if Blocking(file) then CreatedIds(file.value.provenance) else {}
  }

  /** What the merged provenance records: earlier creations and the volumes missing now. */
  function Created(f: Files, pf: Preflight): (r: set<int>)
    requires Shaped(pf)
  {
    PriorCreated(f.journal) + ({1, 2, 3} - VolumeIds(pf))
  }

  /** A journal that only had more created members added to it. */
  predicate Widened(was: Option<Journal>, now: Option<Journal>, more: set<int>) {
    && was.Some? && Trusted(was.value) && !RuntimeSafe(was.value) && was.value.provenance.Some?
    && now == Some(was.value.(provenance := Some(PartitionOf(CreatedIds(was.value.provenance) + more))))
  }

  method Refuse(h: Host, retry: Option<Journal>, provenance: Provenance)
    requires h.Valid()
    modifies h`w, h`up, h`call
    ensures h.Valid() && (h.up ==> old(h.up))
    ensures h.w == old(h.w) || (retry.Some? && h.w == old(h.w).(files := old(h.w).files.(journal := Some(retry.value.(provenance := Some(provenance))))))
    ensures retry.Some? && !retry.value.phase.Completed? && !RuntimeSafe(retry.value) ==> h.call == old(h.call)
    ensures retry.None? ==> h.call == old(h.call)
    ensures h.reliable && retry.Some? && old(h.w).files.journal == retry
            ==> h.w == old(h.w).(files := old(h.w).files.(journal := Some(retry.value.(provenance := Some(provenance)))))
  {
    if retry.Some? && retry.value.provenance != Some(provenance) {
      var saved := h.Write(PutJournal(retry.value.(provenance := Some(provenance))));
    }
  }

  twostate predicate OnlyRefused(h: Host, more: set<int>)
    reads h
  {
    && (h.up ==> old(h.up)) && h.log == old(h.log) && h.call == old(h.call)
    && (Watched(old(h.w), h.w, h.stable)
        || (Watched(old(h.w), h.w.(files := old(h.w).files), h.stable)
            && h.w.files == old(h.w).files.(journal := h.w.files.journal)
            && Widened(old(h.w).files.journal, h.w.files.journal, more)))
  }

  /** The hosts and packages a recovery accepts. */
  predicate Admissible(w: World, pkg: Package) {
    && pkg.valid
    && (|| w.files.journal.None?
        || (w.files.config && AllowsSupervision(w.files.journal))
        || (Resumable(w.files, pkg) && w.files.journal.value.provenance.Some?))
    && (NoEnvelopes(w) || (w.network && VolumesComplete(w)))
    && (w.files.token.None? || w.files.token == Some(pkg.token))
    && (!w.files.config && w.files.journal.None? ==> BlankHost(w))
  }

  predicate BlankHost(w: World) {
    && Empty(w) && w.files.token.None? && !w.files.kubeconfig
    && (w.files.desired.None? || StoppedIntent(w.files))
  }

  /** A retry that meets envelopes of this cluster, but not the network and all the volumes they need. */
  predicate HalfBuilt(w: World, pkg: Package) {
    && pkg.valid && Resumable(w.files, pkg) && w.files.journal.value.provenance.Some?
    && !NoEnvelopes(w) && !(w.network && VolumesComplete(w))
  }

  /** The members without a volume. */
  function Gaps(w: World): (r: set<int>) {
    set i | 1 <= i <= 3 && w.members[i].data.Absent?
  }

  predicate Consistent(pf: Preflight, f: Files, pkg: Package)
    requires Shaped(pf)
  {
    && (NoRecord(pf) || (pf.network && VolumeCount(pf) == 3))
    && (f.token.None? || f.token == Some(pkg.token))
    && (!f.config && f.journal.None?
        ==> f.token.None? && !f.kubeconfig && (f.desired.None? || StoppedIntent(f))
            && !pf.network && VolumeCount(pf) == 0 && NoRecord(pf))
  }

  lemma ConsistentIsExact(pf: Preflight, w: World, pkg: Package)
    requires SeenExactly(pf, w)
    ensures Consistent(pf, w.files, pkg) <==>
            && (NoEnvelopes(w) || (w.network && VolumesComplete(w)))
            && (w.files.token.None? || w.files.token == Some(pkg.token))
            && (!w.files.config && w.files.journal.None? ==> BlankHost(w))
    ensures NoRecord(pf) <==> NoEnvelopes(w)
    ensures {1, 2, 3} - VolumeIds(pf) == Gaps(w) && (VolumeCount(pf) == 3 <==> VolumesComplete(w))
  {
  }

  /** Look at the host, and either refuse or say what the recovery has to make. */
  method Judge(h: Host, pkg: Package) returns (ok: bool, plan: Plan, ghost missing: set<int>)
    requires h.Valid()
    modifies h`w, h`up, h`call
    ensures h.Valid() && OnlyRefused(h, missing) && missing <= {1, 2, 3}
    ensures ok ==> h.up && Watched(old(h.w), h.w, h.stable) && Sensible(plan, h.w, pkg, h.stable)
    ensures h.reliable ==> (ok <==> Admissible(old(h.w), pkg)) && (ok ==> h.w == old(h.w) && SeenExactly(plan.pf, h.w))
    ensures h.reliable && HalfBuilt(old(h.w), pkg) ==> Widened(old(h.w).files.journal, h.w.files.journal, Gaps(old(h.w)))
  {
    WatchedNothing(h.w, h.stable);
    hide KeptWhole, Watched, Sensible, Seen, Widened, Resumable, Trusted, RuntimeSafe;
    missing := {};
    plan := Plan(NOTHING_SEEN, {}, false, false);
    ok := pkg.valid && h.up;
    if !ok {
      return;
    }
    var pf, retry;
    ok, pf := TakePreflight(h, true);
    if !ok {
      return;
    }
    ok, retry := LoadRetry(h, pkg);
    if !ok || (retry.Some? && retry.value.provenance.None?) {
      return false, plan, missing;
    }
    if h.reliable {
      ConsistentIsExact(pf, h.w, pkg);
    }
    ok, plan, missing := Weigh(h, pkg, pf, retry);
  }

  method Weigh(h: Host, pkg: Package, pf: Preflight, retry: Option<Journal>) returns (ok: bool, plan: Plan, ghost missing: set<int>)
    requires h.Valid() && h.up && Seen(pf, h.w, h.stable)
    requires retry.Some? ==> Resumable(h.w.files, pkg) && h.w.files.journal == retry && retry.value.provenance.Some?
    requires retry.None? ==> h.w.files.journal.None? || (h.w.files.config && AllowsSupervision(h.w.files.journal))
    modifies h`w, h`up, h`call
    ensures h.Valid() && (h.up ==> old(h.up)) && h.call == old(h.call)
    ensures h.w == old(h.w) || (h.w == old(h.w).(files := old(h.w).files.(journal := h.w.files.journal))
                                && Widened(old(h.w).files.journal, h.w.files.journal, missing))
    ensures ok ==> h.up && h.w == old(h.w) && Sensible(plan, h.w, pkg, h.stable) && plan.pf == pf
    ensures ok <==> Consistent(pf, old(h.w).files, pkg)
    ensures h.reliable && retry.Some? && !NoRecord(pf) && !(pf.network && VolumeCount(pf) == 3)
            ==> Widened(old(h.w).files.journal, h.w.files.journal, {1, 2, 3} - VolumeIds(pf))
    ensures missing <= {1, 2, 3}
  {
    var volumes := VolumeIds(pf);
    missing := {1, 2, 3} - volumes;
    var provenance := MergeProvenance(volumes, if retry.Some? then retry.value.provenance else None);
    plan := Plan(pf, (if retry.Some? then CreatedIds(retry.value.provenance) else {}) + ({1, 2, 3} - volumes), false, !h.w.files.config);
    var found := AnyRecord(pf);
    if found && (!pf.network || VolumeCount(pf) != MEMBER_COUNT) {
      Refuse(h, retry, provenance);
      ok := false;
      return;
    }
    var tokenMissing;
    ok, tokenMissing := CheckToken(h, pkg);
    plan := plan.(tokenMissing := tokenMissing);
    if ok && !h.w.files.config && retry.None? {
      ok := CheckEmptyHost(h, pf);
    }
  }

  // ---- publishing the plan ---------------------------------------------------------------------

  /** The files after some of the durable writes, in their order. */
  predicate Published(f: Files, g: Files, base: Journal, token: nat) {
    && g == f.(desired := g.desired, journal := g.journal, token := g.token, config := g.config)
    && (g.desired == f.desired || (ReadableIntent(f) && g.desired == Some(IntentOf(f).(running := false))))
    && (g.journal == f.journal || (g.journal == Some(base) && StoppedIntent(g)))
    && (g.token == f.token || (f.token.None? && g.token == Some(token) && g.journal == Some(base) && StoppedIntent(g)))
    && (g.config == f.config || (g.config && g.journal == Some(base) && g.token.Some? && StoppedIntent(g)))
  }

  /** Intent first, then the journal, then the token, and the configuration last. */
  method Publish(h: Host, base: Journal, token: nat, tokenMissing: bool, configMissing: bool) returns (ok: bool)
    requires h.Valid() && base.phase.Validated?
    requires tokenMissing <==> h.w.files.token.None?
    requires configMissing <==> !h.w.files.config
    modifies h`w, h`up, h`call
    ensures h.Valid() && (h.up ==> old(h.up)) && (ok ==> h.up) && h.call == old(h.call)
    ensures h.w == old(h.w).(files := h.w.files)
    ensures Published(old(h.w).files, h.w.files, base, token)
    ensures ok ==> h.w.files.journal == Some(base) && h.w.files.config && h.w.files.token.Some?
    ensures ok ==> ReadableIntent(h.w.files)
    ensures h.reliable && ReadableIntent(old(h.w).files) ==> ok
  {
    ok := PublishIntent(h, base, token);
    if ok {
      ghost var g := h.w.files;
      ok := PublishFiles(h, token, tokenMissing, configMissing);
      PublishedMore(old(h.w).files, g, h.w.files, base, token);
      hide Published, StoppedIntent, ReadableIntent;
    }
  }

  lemma PublishedMore(f: Files, g: Files, after: Files, base: Journal, token: nat)
    requires Published(f, g, base, token) && g.journal == Some(base) && StoppedIntent(g)
    requires g.token == f.token && g.config == f.config
    requires after == g.(token := after.token, config := after.config)
    requires after.token == g.token || (g.token.None? && after.token == Some(token))
    requires after.config == g.config || (after.config && after.token.Some?)
    ensures Published(f, after, base, token)
  {
  }

  method PublishIntent(h: Host, base: Journal, ghost token: nat) returns (ok: bool)
    requires h.Valid() && base.phase.Validated?
    modifies h`w, h`up, h`call
    ensures h.Valid() && (h.up ==> old(h.up)) && (ok ==> h.up) && h.call == old(h.call)
    ensures h.w == old(h.w).(files := h.w.files)
    ensures Published(old(h.w).files, h.w.files, base, token)
    ensures h.w.files.token == old(h.w).files.token && h.w.files.config == old(h.w).files.config
    ensures ok ==> h.w.files.journal == Some(base) && StoppedIntent(h.w.files)
    ensures h.reliable && ReadableIntent(old(h.w).files) ==> ok
  {
    ok := MarkClusterStopped(h);
    if ok {
      ok := h.Write(PutJournal(base));
    }
  }

  method PublishFiles(h: Host, token: nat, tokenMissing: bool, configMissing: bool) returns (ok: bool)
    requires h.Valid()
    requires tokenMissing <==> h.w.files.token.None?
    requires configMissing <==> !h.w.files.config
    modifies h`w, h`up, h`call
    ensures h.Valid() && (h.up ==> old(h.up)) && (ok ==> h.up) && h.call == old(h.call)
    ensures h.w == old(h.w).(files := old(h.w).files.(token := h.w.files.token, config := h.w.files.config))
    ensures h.w.files.token == old(h.w).files.token || (old(h.w).files.token.None? && h.w.files.token == Some(token))
    ensures h.w.files.config == old(h.w).files.config || (h.w.files.config && h.w.files.token.Some?)
    ensures ok ==> h.w.files.config && h.w.files.token.Some?
    ensures h.reliable ==> ok
  {
    ok := true;
    if tokenMissing {
      ok := h.Write(PutToken(token));
    }
    if ok && configMissing {
      ok := h.Write(PutConfig);
    }
    ok := ok && h.up;
  }

  // ---- network and volumes ---------------------------------------------------------------------

  /** Infrastructure only grows, and no server or helper is touched. */
  predicate Grown(w: World, after: World, stable: bool) {
    && after.files == w.files
    && (w.network ==> after.network) && after.lost == w.lost
    && (forall i | 1 <= i <= 3 :: EnvelopeDrift(w.members[i].envelope, after.members[i].envelope, stable))
    && (forall i | 1 <= i <= 3 :: after.members[i].data.Absent? ==> w.members[i].data.Absent?)
    && (forall k | 0 <= k <= 3 :: HelperUndisturbed(w, after, k))
  }

  lemma GrownTrans(a: World, b: World, c: World, stable: bool)
    requires Grown(a, b, stable) && Grown(b, c, stable)
    ensures Grown(a, c, stable)
  {
    forall i | 1 <= i <= 3 ensures EnvelopeDrift(a.members[i].envelope, c.members[i].envelope, stable) {
      assert EnvelopeDrift(a.members[i].envelope, b.members[i].envelope, stable);
      assert EnvelopeDrift(b.members[i].envelope, c.members[i].envelope, stable);
    }
    forall k | 0 <= k <= 3 ensures HelperUndisturbed(a, c, k) {
      assert HelperUndisturbed(a, b, k) && HelperUndisturbed(b, c, k);
    }
  }

  method EnsureNetwork(h: Host, pf: Preflight) returns (ok: bool)
    requires h.Valid() && h.Guarded() && Shaped(pf) && (pf.network ==> h.w.network)
    modifies h`w, h`up, h`log
    ensures h.Valid() && (h.up ==> old(h.up)) && h.Guarded() && h.call == old(h.call)
    ensures Grown(old(h.w), h.w, h.stable) && (ok ==> h.w.network)
    ensures forall i | 1 <= i <= 3 :: h.w.members[i].data.Absent? <==> old(h.w).members[i].data.Absent?
    ensures h.reliable && pf.network == old(h.w).network ==> ok && h.w == old(h.w).(network := true)
    ensures Coherent(old(h.w)) ==> Coherent(h.w)
  {
    ok := true;
    if !pf.network {
      ok := h.MakeNetwork();
      NetworkGrows(old(h.w), h.w, h.stable);
    }
  }

  lemma NetworkGrows(w: World, after: World, stable: bool)
    requires Evolved(w, after.(network := w.network), {}, {}, stable) && (w.network ==> after.network)
    ensures Grown(w, after, stable)
    ensures forall i | 1 <= i <= 3 :: after.members[i].data.Absent? <==> w.members[i].data.Absent?
  {
    var same := after.(network := w.network);
    forall i | 1 <= i <= 3
      ensures EnvelopeDrift(w.members[i].envelope, after.members[i].envelope, stable)
      ensures after.members[i].data.Absent? <==> w.members[i].data.Absent?
    {
      assert Undisturbed(w, same, i, stable);
    }
    forall k | 0 <= k <= 3 ensures HelperUndisturbed(w, after, k) {
      assert HelperUndisturbed(w, same, k);
    }
  }

  method EnsureVolume(h: Host, i: Id) returns (ok: bool)
    requires h.Valid() && h.Guarded() && RecordedAsCreated(h.w.files.journal, i) && !Up(h.w, i)
    modifies h`w, h`up, h`log
    ensures h.Valid() && (h.up ==> old(h.up)) && h.Guarded() && h.call == old(h.call)
    ensures Grown(old(h.w), h.w, h.stable) && (ok ==> !h.w.members[i].data.Absent?)
    ensures h.w.network == old(h.w).network
    ensures forall j | 1 <= j <= 3 && j != i :: h.w.members[j].data.Absent? <==> old(h.w).members[j].data.Absent?
    ensures h.reliable && old(h.w).members[i].data.Absent? ==> ok && h.w == SetData(old(h.w), i, Blank)
  {
    ok := h.MakeVolume(i);
  }

  /** Volumes are missing only where no server exists, and only where the journal says so. */
  predicate Fillable(pf: Preflight, w: World) {
    && Shaped(pf)
    && (pf.network ==> w.network)
    && (forall i | 1 <= i <= 3 :: pf.volumes[i] <==> !w.members[i].data.Absent?)
    && (forall i | 1 <= i <= 3 :: !pf.volumes[i] ==> !Up(w, i) && RecordedAsCreated(w.files.journal, i))
  }

  method EnsureVolumes(h: Host, pf: Preflight) returns (ok: bool)
    requires h.Valid() && h.Guarded() && Fillable(pf, h.w)
    modifies h`w, h`up, h`log
    ensures h.Valid() && (h.up ==> old(h.up)) && h.Guarded() && h.call == old(h.call)
    ensures Grown(old(h.w), h.w, h.stable) && (ok ==> VolumesComplete(h.w))
    ensures h.w.network == old(h.w).network
    ensures VolumesComplete(old(h.w)) ==> h.w == old(h.w)
    ensures h.reliable ==> ok && h.w.nextCluster == old(h.w).nextCluster
  {
    hide Guard, OneLineage;
    ok := true;
    var i := 1;
    while i <= MEMBER_COUNT && ok
      invariant 1 <= i <= 4
      invariant h.Valid() && (h.up ==> old(h.up)) && h.Guarded() && h.call == old(h.call)
      invariant Grown(old(h.w), h.w, h.stable) && h.w.network == old(h.w).network
      invariant forall j | i <= j <= 3 :: pf.volumes[j] <==> !h.w.members[j].data.Absent?
      invariant ok ==> forall j | 1 <= j < i :: !h.w.members[j].data.Absent?
      invariant h.reliable ==> ok && h.w.nextCluster == old(h.w).nextCluster
      invariant VolumesComplete(old(h.w)) ==> h.w == old(h.w)
    {
      if !pf.volumes[i] {
        ghost var w1 := h.w;
        assert EnvelopeDrift(old(h.w).members[i].envelope, h.w.members[i].envelope, h.stable);
        ok := EnsureVolume(h, i);
        GrownTrans(old(h.w), w1, h.w, h.stable);
      }
      i := i + 1;
    }
  }

  lemma StillFillable(pf: Preflight, w: World, after: World, stable: bool)
    requires Fillable(pf, w) && Grown(w, after, stable)
    requires forall i | 1 <= i <= 3 :: after.members[i].data.Absent? <==> w.members[i].data.Absent?
    ensures Fillable(pf, after)
  {
    assert forall i | 1 <= i <= 3 :: EnvelopeDrift(w.members[i].envelope, after.members[i].envelope, stable);
  }

  method EnsureInfrastructure(h: Host, pf: Preflight) returns (ok: bool)
    requires h.Valid() && h.Guarded() && Fillable(pf, h.w)
    modifies h`w, h`up, h`log
    ensures h.Valid() && (h.up ==> old(h.up)) && h.Guarded() && h.call == old(h.call)
    ensures Grown(old(h.w), h.w, h.stable) && (ok ==> h.w.network && VolumesComplete(h.w))
    ensures h.reliable && pf.network == old(h.w).network ==> ok && h.w.nextCluster == old(h.w).nextCluster
    ensures VolumesComplete(old(h.w)) && Coherent(old(h.w)) ==> Coherent(h.w)
  {
    hide Guard, Grown, Coherent;
    ok := EnsureNetwork(h, pf);
    if ok {
      ghost var w1 := h.w;
      StillFillable(pf, old(h.w), w1, h.stable);
      ok := EnsureVolumes(h, pf);
      GrownTrans(old(h.w), w1, h.w, h.stable);
    }
  }

  // ---- the whole recovery ------------------------------------------------------------------------

  /** With all volumes present and no creation on record, the run cannot have begun with a total loss. */
  ghost predicate Recoverable(w: World) {
    VolumesComplete(w) && PriorCreated(w.files.journal) == {} ==> !w.lost
  }

  lemma SeenThrough(pf: Preflight, w: World, after: World, helpers: set<int>, stable: bool)
    requires Seen(pf, w, stable) && Evolved(w, after, {}, helpers, stable)
    ensures Seen(pf, after, stable)
  {
    forall i | 1 <= i <= 3 ensures MemberSeen(pf, after, i, stable) {
      assert MemberSeen(pf, w, i, stable) && Undisturbed(w, after, i, stable);
    }
  }

  lemma StagedStaysSensible(plan: Plan, w: World, after: World, pkg: Package, stable: bool)
    requires Sensible(plan, w, pkg, stable)
    requires Evolved(w, WithStaging(after, w.files.staging), {}, RECOVERERS, stable) && Lineal(w, after)
    requires after.files == w.files.(staging := after.files.staging)
    ensures Sensible(plan, after, pkg, stable)
    ensures Recoverable(w) ==> Recoverable(after)
  {
    var same := WithStaging(after, w.files.staging);
    SeenThrough(plan.pf, w, same, RECOVERERS, stable);
    SeenWhateverFiles(plan.pf, same, after, stable);
  }

  /** Among the volumes of a sensible plan, the created ones cover the missing ones. */
  lemma PlanIsFillable(plan: Plan, w: World, after: World, pkg: Package, stable: bool)
    requires Sensible(plan, w, pkg, stable)
    requires after == w.(files := after.files) && after.files.journal == Some(BaseOf(pkg, plan.created))
    ensures Fillable(plan.pf, after)
    ensures plan.created <= {1, 2, 3}
    ensures NewMembers(BaseOf(pkg, plan.created)) == plan.created
  {
    PriorIsInRange(w.files, pkg);
    PartitionOfIsPartition(plan.created);
    forall i | 1 <= i <= 3
      ensures plan.pf.volumes[i] <==> !after.members[i].data.Absent?
      ensures !plan.pf.volumes[i] ==> !Up(after, i) && RecordedAsCreated(after.files.journal, i)
    {
      assert MemberSeen(plan.pf, w, i, stable);
    }
  }

  lemma PriorIsInRange(f: Files, pkg: Package)
    requires f.journal.Some? ==> AllowsSupervision(f.journal) || Resumable(f, pkg)
    ensures PriorCreated(f.journal) <= {1, 2, 3}
  {
  }

  lemma MayBeginRecovery(plan: Plan, w: World, published: World, after: World, pkg: Package, stable: bool)
    requires Sensible(plan, w, pkg, stable) && Recoverable(w)
    requires published == w.(files := published.files)
    requires published.files.journal == Some(BaseOf(pkg, plan.created))
    requires after.files.journal == published.files.journal && after.lost == w.lost
    ensures MayBegin(after, BaseOf(pkg, plan.created)) && Fresh(BaseOf(pkg, plan.created))
  {
    PlanIsFillable(plan, w, published, pkg, stable);
    if plan.created == {} {
      assert 1 in VolumeIds(plan.pf) && 2 in VolumeIds(plan.pf) && 3 in VolumeIds(plan.pf) by {
        assert forall i | i in {1, 2, 3} :: i !in ({1, 2, 3} - VolumeIds(plan.pf));
      }
      assert VolumesComplete(published);
      assert PriorCreated(w.files.journal) == {};
    }
  }

  /** The files moved on in order, and only behind the new journal was anything created. */
  predicate Laid(w: World, after: World, base: Journal, token: nat, stable: bool) {
    && Published(w.files, after.files, base, token)
    && Grown(w.(files := after.files), after, stable)
    && (after.files.journal == Some(base) || after == w.(files := after.files))
  }

  /** Write the plan down, create what is missing, and look again. */
  method Lay(h: Host, pkg: Package, plan: Plan) returns (ok: bool, pf: Preflight)
    requires h.Valid() && h.Disciplined() && Sensible(plan, h.w, pkg, h.stable) && Recoverable(h.w) && h.call.created
    modifies h`w, h`up, h`log, h`call
    ensures h.Valid() && (h.up ==> old(h.up)) && h.Disciplined() && h.call == old(h.call)
    ensures Laid(old(h.w), h.w, BaseOf(pkg, plan.created), pkg.token, h.stable)
    ensures ok ==> MayBegin(h.w, BaseOf(pkg, plan.created)) && Fresh(BaseOf(pkg, plan.created)) && Seen(pf, h.w, h.stable)
    ensures ok ==> h.w.network && VolumesComplete(h.w) && h.w.files.config && ReadableIntent(h.w.files)
    ensures ok ==> h.w.files.journal == Some(BaseOf(pkg, plan.created))
    ensures VolumesComplete(old(h.w)) && Coherent(old(h.w)) ==> Coherent(h.w)
    ensures h.reliable && SeenExactly(plan.pf, old(h.w)) && ReadableIntent(old(h.w).files)
            ==> ok && SeenExactly(pf, h.w) && h.w.nextCluster == old(h.w).nextCluster
  {
    pf := plan.pf;
    var base := BaseOf(pkg, plan.created);
    ok := Publish(h, base, pkg.token, plan.tokenMissing, plan.configMissing);
    PublishedIsHarmless(old(h.w), h.w, h.log, h.call, base, pkg.token, h.stable);
    if !ok {
      return;
    }
    PlanIsFillable(plan, old(h.w), h.w, pkg, h.stable);
    ghost var published := h.w;
    ok, pf := Fill(h, plan.pf);
    MayBeginRecovery(plan, old(h.w), published, h.w, pkg, h.stable);
    hide Published, Grown, Fillable, Sensible, Recoverable, MayBegin, Discipline, Guard, Coherent, BaseOf, Seen, SeenExactly;
  }

  lemma PublishedIsHarmless(w: World, after: World, log: seq<Entry>, call: Call, base: Journal, token: nat, stable: bool)
    requires Discipline(w, log) && after == w.(files := after.files) && Published(w.files, after.files, base, token)
    requires base.phase.Validated? && !base.succeeded && (w.lost ==> call.created)
    ensures Discipline(after, log) && Grown(w.(files := after.files), after, stable)
    ensures after.files.journal == Some(base) ==> Guard(after, log, call)
  {
    hide AllSound;
  }

  /** Create the network and the missing volumes behind the open journal, then inspect everything again. */
  method Fill(h: Host, seen: Preflight) returns (ok: bool, pf: Preflight)
    requires h.Valid() && h.Guarded() && Fillable(seen, h.w)
    modifies h`w, h`up, h`log
    ensures h.Valid() && (h.up ==> old(h.up)) && h.Disciplined() && h.call == old(h.call)
    ensures Grown(old(h.w), h.w, h.stable)
    ensures ok ==> Seen(pf, h.w, h.stable) && h.w.network && VolumesComplete(h.w)
    ensures VolumesComplete(old(h.w)) && Coherent(old(h.w)) ==> Coherent(h.w)
    ensures h.reliable && seen.network == old(h.w).network
            ==> ok && SeenExactly(pf, h.w) && h.w.nextCluster == old(h.w).nextCluster
  {
    pf := seen;
    ok := EnsureInfrastructure(h, seen);
    if !ok {
      return;
    }

    ghost var w1 := h.w;
    ok, pf := TakePreflight(h, true);
    WatchedIsGrown(w1, h.w, h.stable);
    GrownTrans(old(h.w), w1, h.w, h.stable);
    assert Discipline(h.w, h.log) by {
      hide AllSound, OneLineage, Coherent, Rejoining, Mountable;
    }
    hide Coherent, Lineal, Guard, Discipline, Grown, Fillable;
    ok := ok && pf.network && VolumeCount(pf) == MEMBER_COUNT;
  }

  lemma WatchedIsGrown(w: World, after: World, stable: bool)
    requires Watched(w, after, stable)
    ensures Grown(w, after, stable)
  {
    forall i | 1 <= i <= 3 ensures EnvelopeDrift(w.members[i].envelope, after.members[i].envelope, stable) {
      assert Undisturbed(w, after, i, stable);
    }
    forall k | 0 <= k <= 3 ensures HelperUndisturbed(w, after, k) {
    }
  }

  // ---- a recovery of a lost host, from its first call to its end -----------------------------------

  /** An open journal of this recovery: it closes both other gates and records all three volumes as created. */
  predicate Ours(j: Journal, pkg: Package) {
    && Blocking(Some(j))
    && j.identity == pkg.identity && j.snapshot == pkg.path
    && j.provenance == Some(PartitionOf({1, 2, 3}))
  }

  predicate Ledger(f: Files, pkg: Package) {
    && (f.journal.Some? ==> Ours(f.journal.value, pkg))
    && (f.token.None? || f.token == Some(pkg.token))
    && ReadableIntent(f)
    && (!f.config && f.desired.Some? ==> !f.desired.value.running)
    && (!f.config && f.journal.Some? ==> f.desired.Some?)
    && (f.journal.None? ==> !f.config && f.token.None? && !f.kubeconfig)
  }

  /** Every state an unfinished recovery of a lost host can be left in. */
  predicate Underway(w: World, pkg: Package) {
    && Ledger(w.files, pkg)
    && (w.files.journal.None? ==> Empty(w))
    && (NoEnvelopes(w) || (w.network && VolumesComplete(w)))
    && w.helpers[SNAPSHOT].Missing?
  }

  /** The supervisor may come back: three volumes of one cluster, and a journal that says so. */
  predicate Finished(w: World) {
    w.files.journal.Some? && AllowsSupervision(w.files.journal) && Coherent(w)
  }

  /** A host that lost everything, and an unfinished recovery in every later state, can be recovered. */
  lemma UnderwayIsRecoverable(w: World, pkg: Package)
    requires Underway(w, pkg)
    ensures Recoverable(w)
    ensures w.files.config ==> !AllowsRestore(w.files.journal) && !AllowsSupervision(w.files.journal)
  {
    PartitionOfIsPartition({1, 2, 3});
    if w.files.journal.Some? {
      var j := w.files.journal.value;
      assert 1 in CreatedIds(j.provenance);
      RecoverOnlyJournalClosesOtherGates(j);
    }
  }

  /**
  A retry is admitted from every such state with one exception: the journal of a call that
  finished its work, failed to save that, and then overwrote its record as failed.
   */
  lemma UnderwayIsAdmissible(w: World, pkg: Package)
    requires Underway(w, pkg) && pkg.valid
    ensures Admissible(w, pkg) <==> w.files.journal.None? || Trusted(w.files.journal.value)
  {
    if w.files.journal.Some? && Trusted(w.files.journal.value) {
      TrustedSafety(w.files.journal.value);
    }
  }

  lemma OursAfterCall(file: Option<Journal>, pkg: Package)
    requires OfCall(file, BaseOf(pkg, {1, 2, 3}))
    ensures file.Some? && (AllowsSupervision(file) || Ours(file.value, pkg))
  {
  }

  lemma UnderwayDrifts(w: World, after: World, pkg: Package, helpers: set<int>, stable: bool)
    requires Underway(w, pkg) && Evolved(w, after, {}, helpers, stable) && SNAPSHOT !in helpers
    ensures Underway(after, pkg)
  {
    assert Undisturbed(w, after, 1, stable) && Undisturbed(w, after, 2, stable) && Undisturbed(w, after, 3, stable);
    assert HelperUndisturbed(w, after, SNAPSHOT);
  }

  lemma UnderwayStaged(w: World, after: World, pkg: Package, stable: bool)
    requires Underway(w, pkg)
    requires Evolved(w, WithStaging(after, w.files.staging), {}, RECOVERERS, stable)
    requires after.files == w.files.(staging := after.files.staging)
    ensures Underway(after, pkg)
  {
    UnderwayDrifts(w, WithStaging(after, w.files.staging), pkg, RECOVERERS, stable);
  }

  lemma UnderwayCreatesAll(plan: Plan, w: World, pkg: Package, stable: bool)
    requires Underway(w, pkg) && Sensible(plan, w, pkg, stable)
    ensures plan.created == {1, 2, 3}
  {
    if w.files.journal.Some? {
      PartitionOfIsPartition({1, 2, 3});
    } else {
      assert MemberSeen(plan.pf, w, 1, stable) && MemberSeen(plan.pf, w, 2, stable) && MemberSeen(plan.pf, w, 3, stable);
      assert VolumeIds(plan.pf) == {};
    }
  }

  lemma LedgerPublished(f: Files, g: Files, pkg: Package)
    requires Ledger(f, pkg) && Published(f, g, BaseOf(pkg, {1, 2, 3}), pkg.token)
    ensures Ledger(g, pkg)
  {
  }

  lemma UnderwayLaid(plan: Plan, w: World, after: World, pkg: Package, stable: bool)
    requires Underway(w, pkg) && Sensible(plan, w, pkg, stable)
    requires Laid(w, after, BaseOf(pkg, plan.created), pkg.token, stable)
    ensures Underway(after, pkg) && plan.created == {1, 2, 3}
  {
    UnderwayCreatesAll(plan, w, pkg, stable);
    LedgerPublished(w.files, after.files, pkg);
    assert HelperUndisturbed(w.(files := after.files), after, SNAPSHOT);
    assert EnvelopeDrift(w.members[1].envelope, after.members[1].envelope, stable);
    assert EnvelopeDrift(w.members[2].envelope, after.members[2].envelope, stable);
    assert EnvelopeDrift(w.members[3].envelope, after.members[3].envelope, stable);
  }

  lemma UnderwayRestored(w: World, after: World, pkg: Package)
    requires Underway(w, pkg) && SameGround(w, after) && Backed(after)
    requires w.files.config && w.network && VolumesComplete(w)
    requires JournalLeft(w.files.journal, after.files.journal, BaseOf(pkg, {1, 2, 3}))
    ensures Underway(after, pkg) || Finished(after)
  {
    hide OfCall, BaseOf, Trusted, RuntimeSafe, Coherent, ValidDesired;
    if after.files.journal != w.files.journal {
      OursAfterCall(after.files.journal, pkg);
    }
  }

  /**
  The journals that vouch for the volumes: those that let the supervisor in, and the open ones that
  record no creation and have not announced the reset, or in which both peers have rejoined.
   */
  predicate Vouching(file: Option<Journal>) {
    || AllowsSupervision(file)
    || AtVerifying(file)
    || (file.Some? && Early(file.value.phase) && CreatedIds(file.value.provenance) == {})
  }

  /** What the journal vouches for is true, unless a volume is missing. */
  ghost predicate Credible(w: World) {
    Vouching(w.files.journal) && VolumesComplete(w) ==> Coherent(w)
  }

  /** A recovery of this host does not begin on mixed volumes: they are vouched for, or some are or will be on record as created. */
  predicate Unmixed(w: World) {
    Vouching(w.files.journal) || PriorCreated(w.files.journal) != {} || !VolumesComplete(w)
  }

  /** What a recovery call leaves behind, whatever happened. */
  twostate predicate RecoveryLeaves(h: Host, pkg: Package, created: set<int>)
    reads h
  {
    && (h.up ==> old(h.up)) && h.w.lost == old(h.w).lost
    && RecoveryJournal(old(h.w).files.journal, h.w.files.journal, pkg, created)
    && (!h.call.strayed ==>
          && h.Disciplined()
          && (h.w.files.journal != old(h.w).files.journal && AllowsSupervision(h.w.files.journal) ==> Coherent(h.w)))
    && (h.call.strayed ==> h.call.mixed && !h.call.attempted && created == {} && Answered(old(h.efforts), h.efforts, RollingBack))
    && (h.w.files.journal != old(h.w).files.journal && AllowsSupervision(h.w.files.journal)
        ==> Vouched(h.call) && (h.stable ==> AllUp(h.w)))
    && (old(Underway(h.w, pkg)) ==> !h.call.strayed && (Underway(h.w, pkg) || Finished(h.w)))
    && (old(Unmixed(h.w) && Credible(h.w)) ==> !h.call.strayed && Credible(h.w))
  }

  /** The journal is the old one, the old one with more creations, or this call's with at least as many. */
  predicate RecoveryJournal(was: Option<Journal>, now: Option<Journal>, pkg: Package, created: set<int>) {
    || now == was
    || Widened(was, now, created)
    || (OfCall(now, BaseOf(pkg, created)) && PriorCreated(was) <= created <= {1, 2, 3})
  }

  lemma LaidJournal(plan: Plan, w: World, after: World, pkg: Package, stable: bool)
    requires Sensible(plan, w, pkg, stable) && Laid(w, after, BaseOf(pkg, plan.created), pkg.token, stable)
    ensures RecoveryJournal(w.files.journal, after.files.journal, pkg, plan.created)
    ensures PriorCreated(w.files.journal) <= plan.created <= {1, 2, 3}
    ensures after.files.journal != w.files.journal ==> Blocking(after.files.journal)
    ensures after.files.staging == w.files.staging && after.lost == w.lost
  {
    PriorIsInRange(w.files, pkg);
    InFlightBlocks(Some(BaseOf(pkg, plan.created)), BaseOf(pkg, plan.created));
  }

  lemma LaidIsPrepared(w: World, after: World, base: Journal, token: nat, stable: bool)
    requires Laid(w, after, base, token, stable) && NoHelpers(w)
    requires w.files.staging.CompleteStage?
    requires after.network && VolumesComplete(after) && after.files.config
    ensures Prepared(after)
  {
    var mid := w.(files := after.files);
    assert HelperUndisturbed(mid, after, 0) && HelperUndisturbed(mid, after, 1);
    assert HelperUndisturbed(mid, after, 2) && HelperUndisturbed(mid, after, 3);
  }

  lemma RestoredJournal(was: Option<Journal>, mid: Option<Journal>, now: Option<Journal>, pkg: Package, created: set<int>)
    requires RecoveryJournal(was, mid, pkg, created) && PriorCreated(was) <= created <= {1, 2, 3}
    requires JournalLeft(mid, now, BaseOf(pkg, created))
    ensures RecoveryJournal(was, now, pkg, created)
  {
  }

  lemma SmoothHasNoHelpers(w: World, stableIP: seq<nat>, c: nat)
    requires |stableIP| == 4
    ensures SmoothAt(w, stableIP, 3, c) ==> NoHelpers(w)
  {
  }

  /** A plan that creates nothing was made over complete volumes, behind a journal that records no creation. */
  lemma CreatesNone(plan: Plan, w: World, pkg: Package, stable: bool)
    requires Sensible(plan, w, pkg, stable) && plan.created == {}
    ensures VolumesComplete(w) && PriorCreated(w.files.journal) == {}
  {
    assert MemberSeen(plan.pf, w, 1, stable) && MemberSeen(plan.pf, w, 2, stable) && MemberSeen(plan.pf, w, 3, stable);
    assert 1 !in plan.created && 2 !in plan.created && 3 !in plan.created;
    forall i ensures i !in PriorCreated(w.files.journal) {
      assert i !in plan.created;
    }
  }

  lemma LaidIsCredible(plan: Plan, w: World, after: World, pkg: Package, stable: bool)
    requires Sensible(plan, w, pkg, stable) && Unmixed(w) && Credible(w)
    requires Laid(w, after, BaseOf(pkg, plan.created), pkg.token, stable)
    requires VolumesComplete(w) && Coherent(w) ==> Coherent(after)
    ensures Credible(after)
    ensures plan.created == {} ==> Coherent(after)
  {
    hide Coherent;
    PriorIsInRange(w.files, pkg);
    PartitionOfIsPartition(plan.created);
    if plan.created == {} {
      CreatesNone(plan, w, pkg, stable);
    }
  }

  lemma RestoredIsCredible(w: World, after: World, call: Call, pkg: Package, created: set<int>)
    requires w.files.journal == Some(BaseOf(pkg, created)) && created <= {1, 2, 3}
    requires JournalLeft(w.files.journal, after.files.journal, BaseOf(pkg, created)) && Answerable(w, after) && Marked(after, call)
    requires call.mixed == Mixed(w, BaseOf(pkg, created)) && (call.created <==> NewMembers(BaseOf(pkg, created)) != {})
    ensures (created == {} ==> Coherent(w)) ==> Credible(after)
  {
    hide Coherent;
    PartitionOfIsPartition(created);
  }

  /** The restore behind the published plan. */
  method RestoreLaid(h: Host, pkg: Package, created: set<int>, pf: Preflight) returns (ok: bool)
    requires h.Valid() && !h.pledged && h.Disciplined() && created <= {1, 2, 3}
    requires MayBegin(h.w, BaseOf(pkg, created)) && Fresh(BaseOf(pkg, created)) && h.w.files.journal == Some(BaseOf(pkg, created))
    requires Seen(pf, h.w, h.stable) && h.w.files.staging.CompleteStage? && h.w.files.config && h.w.network && VolumesComplete(h.w)
    modifies h`readings, h`efforts, h`w, h`up, h`log, h`call
    ensures h.Valid() && (h.up ==> old(h.up)) && (ok ==> h.up) && h.w.lost == old(h.w).lost
    ensures JournalLeft(old(h.w).files.journal, h.w.files.journal, BaseOf(pkg, created))
    ensures !h.call.strayed ==> h.Disciplined() && Backed(h.w)
    ensures h.call.strayed ==> h.call.mixed && !h.call.attempted && created == {} && h.efforts == old(h.efforts) + [RollingBack]
    ensures AllowsSupervision(h.w.files.journal) ==> Vouched(h.call) && (h.stable ==> AllUp(h.w))
    ensures (created == {} ==> Coherent(old(h.w))) ==> !h.call.strayed && Credible(h.w)
    ensures old(Underway(h.w, pkg)) && created == {1, 2, 3} ==> !h.call.strayed && (Underway(h.w, pkg) || Finished(h.w))
    ensures ok ==> Concluded(h.w, BaseOf(pkg, created)) && h.w.files.kubeconfig
    ensures h.reliable && Prepared(old(h.w)) && SeenExactly(pf, old(h.w)) && ReadableIntent(old(h.w).files)
            ==> ok && SmoothAt(h.w, h.stableIP, 3, old(h.w).nextCluster) && NoHelpers(h.w)
  {
    MixedCreatesNone(h.w, pkg, created);
    hide Concluded, SmoothAt, BaseOf, Coherent, AllUp, Trusted, RuntimeSafe, Discipline, Finished, KeptWhole, Vouched, Mixed, MayBegin, Seen,
         SeenExactly, Prepared, Underway, Credible;
    ok := RestoreValidated(h, BaseOf(pkg, created), pf);
    hide Fresh, JournalLeft, Answerable, Backed, Marked;
    AnswerableIsBacked(old(h.w), h.w, BaseOf(pkg, created));
    if !h.call.strayed {
      RestoredIsCredible(old(h.w), h.w, h.call, pkg, created);
      if old(Underway(h.w, pkg)) && created == {1, 2, 3} {
        UnderwayRestored(old(h.w), h.w, pkg);
      }
    }
    SmoothHasNoHelpers(h.w, h.stableIP, old(h.w).nextCluster);
  }

  /** Publish the plan and build; what is on disk afterwards is true of the volumes. */
  method LayPlan(h: Host, pkg: Package, plan: Plan) returns (ok: bool, pf: Preflight)
    requires h.Valid() && h.Disciplined() && Sensible(plan, h.w, pkg, h.stable) && Recoverable(h.w)
    requires h.w.files.staging.CompleteStage? && h.call.created
    modifies h`w, h`up, h`log, h`call
    ensures h.Valid() && (h.up ==> old(h.up)) && h.Disciplined() && h.call == old(h.call) && h.w.lost == old(h.w).lost
    ensures RecoveryJournal(old(h.w).files.journal, h.w.files.journal, pkg, plan.created)
    ensures PriorCreated(old(h.w).files.journal) <= plan.created <= {1, 2, 3}
    ensures h.w.files.journal != old(h.w).files.journal ==> Blocking(h.w.files.journal)
    ensures old(Underway(h.w, pkg)) ==> Underway(h.w, pkg) && plan.created == {1, 2, 3}
    ensures old(Unmixed(h.w) && Credible(h.w)) ==> Credible(h.w) && (plan.created == {} ==> Coherent(h.w))
    ensures ok ==> MayBegin(h.w, BaseOf(pkg, plan.created)) && Fresh(BaseOf(pkg, plan.created)) && Seen(pf, h.w, h.stable)
    ensures ok ==> h.w.network && VolumesComplete(h.w) && h.w.files.config && h.w.files.staging.CompleteStage?
    ensures ok ==> h.w.files.journal == Some(BaseOf(pkg, plan.created))
    ensures h.reliable && SeenExactly(plan.pf, old(h.w)) && ReadableIntent(old(h.w).files) && NoHelpers(old(h.w))
            ==> ok && Prepared(h.w) && SeenExactly(pf, h.w) && h.w.nextCluster == old(h.w).nextCluster && ReadableIntent(h.w.files)
  {
    hide BaseOf, Coherent, Trusted, RuntimeSafe, Discipline, KeptWhole, RecoveryJournal, Underway, Unmixed, Credible, Sensible, Recoverable,
         Laid, MayBegin, Fresh, Seen, SeenExactly, Prepared, NoHelpers, VolumesComplete, AllowsSupervision;
    ok, pf := Lay(h, pkg, plan);
    LaidJournal(plan, old(h.w), h.w, pkg, h.stable);
    if old(Underway(h.w, pkg)) {
      UnderwayLaid(plan, old(h.w), h.w, pkg, h.stable);
    }
    if old(Unmixed(h.w) && Credible(h.w)) {
      LaidIsCredible(plan, old(h.w), h.w, pkg, h.stable);
    }
    if ok && NoHelpers(old(h.w)) {
      LaidIsPrepared(old(h.w), h.w, BaseOf(pkg, plan.created), pkg.token, h.stable);
    }
  }

  /** The package is staged and the plan stands: publish it, build, and restore. */
  method RecoverStaged(h: Host, pkg: Package, plan: Plan) returns (ok: bool)
    requires h.Valid() && !h.pledged && h.Disciplined() && Sensible(plan, h.w, pkg, h.stable) && Recoverable(h.w)
    requires h.w.files.staging.CompleteStage? && h.call.created && !h.call.strayed
    modifies h`readings, h`efforts, h`w, h`up, h`log, h`call
    ensures h.Valid() && RecoveryLeaves(h, pkg, plan.created) && (ok ==> h.up)
    ensures ok ==> Concluded(h.w, BaseOf(pkg, plan.created)) && h.w.files.kubeconfig
    ensures h.reliable && SeenExactly(plan.pf, old(h.w)) && ReadableIntent(old(h.w).files) && NoHelpers(old(h.w))
            ==> ok && SmoothAt(h.w, h.stableIP, 3, old(h.w).nextCluster) && NoHelpers(h.w)
  {
    hide JournalLeft, Concluded, SmoothAt, BaseOf, Coherent, AllUp, Trusted, RuntimeSafe, Discipline, Finished, KeptWhole, Backed, Vouched,
         Sensible, Recoverable, MayBegin, Fresh, Seen, SeenExactly, Prepared, RecoveryJournal, Underway, Unmixed, Credible, NoHelpers, VolumesComplete, AllowsSupervision;
    var pf;
    ok, pf := LayPlan(h, pkg, plan);
    ghost var w1 := h.w;
    if ok {
      ok := RestoreLaid(h, pkg, plan.created, pf);
      BackedMeans(h.w);
      RestoredJournal(old(h.w).files.journal, w1.files.journal, h.w.files.journal, pkg, plan.created);
    }
  }

  lemma BackedMeans(w: World)
    ensures Backed(w) && AllowsSupervision(w.files.journal) ==> Coherent(w)
  {
  }

  lemma MixedCreatesNone(w: World, pkg: Package, created: set<int>)
    requires created <= {1, 2, 3}
    ensures Mixed(w, BaseOf(pkg, created)) ==> created == {} && !Coherent(w)
  {
    PartitionOfIsPartition(created);
  }

  lemma AnswerableIsBacked(w: World, after: World, base: Journal)
    requires Fresh(base) && w.files.journal == Some(base)
    ensures Answerable(w, after) ==> Backed(after)
  {
  }

  lemma RefusedStaysCredible(w: World, after: World, missing: set<int>, stable: bool)
    requires Credible(w) && missing <= {1, 2, 3}
    requires || Watched(w, after, stable)
             || (Watched(w, after.(files := w.files), stable) && after.files == w.files.(journal := after.files.journal)
                 && Widened(w.files.journal, after.files.journal, missing))
    ensures Credible(after)
  {
    assert Undisturbed(w, after.(files := w.files), 1, stable) && Undisturbed(w, after.(files := w.files), 2, stable)
           && Undisturbed(w, after.(files := w.files), 3, stable);
    if after.files != w.files {
      var was, now := w.files.journal.value, after.files.journal.value;
      CreatedInRange(was.provenance.value);
      PartitionOfIsPartition(CreatedIds(was.provenance) + missing);
      TrustedSafety(was);
    }
  }

  /** A refusal may add to the recorded creations, and changes nothing else. */
  lemma RefusedLeaves(w: World, log: seq<Entry>, after: World, pkg: Package, missing: set<int>, stable: bool)
    requires Discipline(w, log) && missing <= {1, 2, 3}
    requires || Watched(w, after, stable)
             || (Watched(w, after.(files := w.files), stable) && after.files == w.files.(journal := after.files.journal)
                 && Widened(w.files.journal, after.files.journal, missing))
    ensures Discipline(after, log) && RecoveryJournal(w.files.journal, after.files.journal, pkg, missing)
    ensures after.files.journal != w.files.journal ==> Blocking(after.files.journal)
    ensures forall other :: Underway(w, other) ==> Underway(after, other)
    ensures Credible(w) ==> Credible(after)
  {
    if Credible(w) {
      RefusedStaysCredible(w, after, missing, stable);
    }
    forall other | Underway(w, other) ensures Underway(after, other) {
      UnderwayDrifts(w, after.(files := w.files), other, {}, stable);
      if after.files.journal != w.files.journal {
        WidenedIsTheSame(w.files.journal, after.files.journal, other, missing);
      }
    }
  }

  /** A lost host's journal already records everything, so widening it changes nothing. */
  lemma WidenedIsTheSame(was: Option<Journal>, now: Option<Journal>, pkg: Package, missing: set<int>)
    requires Widened(was, now, missing) && missing <= {1, 2, 3} && Ours(was.value, pkg)
    ensures now == was
  {
    PartitionOfIsPartition({1, 2, 3});
    assert CreatedIds(was.value.provenance) + missing == {1, 2, 3};
  }

  /** Staging and helper work around the recovery proper. */
  lemma StagedLeaves(w: World, log: seq<Entry>, after: World, now: seq<Entry>, pkg: Package, stable: bool)
    requires Evolved(w, WithStaging(after, w.files.staging), {}, RECOVERERS, stable) && Lineal(w, after)
    requires after.files == w.files.(staging := after.files.staging)
    ensures Underway(w, pkg) ==> Underway(after, pkg)
    ensures Finished(w) ==> Finished(after)
    ensures Credible(w) ==> Credible(after)
    ensures Unmixed(w) ==> Unmixed(after)
    ensures stable && AllUp(w) ==> AllUp(after)
  {
    if Underway(w, pkg) {
      UnderwayStaged(w, after, pkg, stable);
    }
    var same := WithStaging(after, w.files.staging);
    assert Undisturbed(w, same, 1, stable) && Undisturbed(w, same, 2, stable) && Undisturbed(w, same, 3, stable);
  }

  /** Stage the package, recover, and remove the staged copy again. */
  method RecoverPlanned(h: Host, pkg: Package, plan: Plan) returns (ok: bool)
    requires h.Valid() && !h.pledged && h.Disciplined() && Sensible(plan, h.w, pkg, h.stable) && Recoverable(h.w) && h.call.created && !h.call.strayed
    modifies h`readings, h`efforts, h`w, h`up, h`log, h`call
    ensures h.Valid() && RecoveryLeaves(h, pkg, plan.created) && (ok ==> h.up)
    ensures ok ==> Concluded(h.w, BaseOf(pkg, plan.created)) && h.w.files.kubeconfig
    ensures h.reliable && SeenExactly(plan.pf, old(h.w)) && ReadableIntent(old(h.w).files) && old(h.w).helpers[SNAPSHOT].Missing?
            ==> ok && SmoothAt(h.w, h.stableIP, 3, old(h.w).nextCluster)
  {
    ok := PrepareStage(h);
    StagedLeaves(old(h.w), old(h.log), h.w, h.log, pkg, h.stable);
    StagedStaysSensible(plan, old(h.w), h.w, pkg, h.stable);
    if !ok {
      return;
    }

    ghost var w1 := h.w;
    if h.reliable && SeenExactly(plan.pf, old(h.w)) && old(h.w).helpers[SNAPSHOT].Missing? {
      assert SeenExactly(plan.pf, w1);
    }
    ok := RecoverAndClean(h, pkg, plan);
  }

  method RecoverAndClean(h: Host, pkg: Package, plan: Plan) returns (ok: bool)
    requires h.Valid() && !h.pledged && h.Disciplined() && Sensible(plan, h.w, pkg, h.stable) && Recoverable(h.w)
    requires h.w.files.staging.CompleteStage? && h.call.created && !h.call.strayed
    modifies h`readings, h`efforts, h`w, h`up, h`log, h`call
    ensures h.Valid() && RecoveryLeaves(h, pkg, plan.created) && (ok ==> h.up)
    ensures ok ==> Concluded(h.w, BaseOf(pkg, plan.created)) && h.w.files.kubeconfig
    ensures h.reliable && SeenExactly(plan.pf, old(h.w)) && ReadableIntent(old(h.w).files) && NoHelpers(old(h.w))
            ==> ok && SmoothAt(h.w, h.stableIP, 3, old(h.w).nextCluster)
  {
    hide Sensible, Recoverable, Seen, SeenExactly, Discipline, Underway, Finished, Coherent, AllUp, RecoveryJournal, BaseOf, Trusted,
         RuntimeSafe, ValidDesired;
    ok := RecoverStaged(h, pkg, plan);
    ghost var w2, l2 := h.w, h.log;
    var cleaned := CleanupStage(h);
    StagedLeaves(w2, l2, h.w, h.log, pkg, h.stable);
    ok := ok && cleaned;
  }

  /** Until the journal lets the supervisor in, a member once recorded as created stays recorded. */
  lemma ProvenanceGrows(was: Option<Journal>, now: Option<Journal>, pkg: Package, created: set<int>)
    requires RecoveryJournal(was, now, pkg, created) && created <= {1, 2, 3}
    requires was.Some? && was.value.provenance.Some? ==> IsPartition(was.value.provenance.value)
    ensures AllowsSupervision(now) || PriorCreated(was) <= PriorCreated(now)
  {
    PartitionOfIsPartition(created);
    if was.Some? && was.value.provenance.Some? {
      CreatedInRange(was.value.provenance.value);
      PartitionOfIsPartition(CreatedIds(was.value.provenance) + created);
    }
  }

  lemma CreatedInRange(p: Provenance)
    requires IsPartition(p)
    ensures CreatedIds(Some(p)) <= {1, 2, 3}
  {
  }

  /** A package whose identity and path the journal loader accepts. */
  predicate Recordable(pkg: Package) {
    !IsBlank(pkg.identity) && MountablePath(pkg.path)
  }

  /** An unfinished recovery of another package, or another cluster's token. */
  predicate Foreign(f: Files, pkg: Package) {
    || (f.journal.Some? && Blocking(f.journal) && (f.journal.value.identity != pkg.identity || f.journal.value.snapshot != pkg.path))
    || (f.token.Some? && f.token != Some(pkg.token))
  }

  lemma SensibleIsNotForeign(plan: Plan, w: World, pkg: Package, stable: bool)
    requires Sensible(plan, w, pkg, stable)
    ensures !Foreign(w.files, pkg)
  {
  }

  /** A recovery under way for one package is under way for every package that is not foreign to it. */
  lemma Adopted(w: World, pkg: Package, other: Package)
    requires Underway(w, pkg) && !Foreign(w.files, other)
    ensures Underway(w, other)
  {
  }

  /**
  RecoverHA, from wherever an earlier attempt was interrupted. On a fault-free host it succeeds
  exactly when the package and the host are admissible, and ends with three ready members of the
  cluster the reset founded. A retry that is refused because part of its own earlier work is gone
  first records the missing volumes as created.
   */
  method RecoverHA(h: Host, pkg: Package) returns (ok: bool, ghost created: set<int>)
    requires h.Valid() && !h.pledged && h.Disciplined() && Recoverable(h.w)
    modifies h`readings, h`efforts, h`w, h`up, h`log, h`call
    ensures h.Valid() && RecoveryLeaves(h, pkg, created) && (ok ==> h.up)
    ensures ok ==> Concluded(h.w, BaseOf(pkg, created)) && h.w.files.kubeconfig
    ensures h.reliable && ReadableIntent(old(h.w).files) && old(h.w).helpers[SNAPSHOT].Missing?
            ==> (ok <==> Admissible(old(h.w), pkg)) && (ok ==> SmoothAt(h.w, h.stableIP, 3, old(h.w).nextCluster))
    ensures h.reliable && HalfBuilt(old(h.w), pkg) ==> !ok && Widened(old(h.w).files.journal, h.w.files.journal, Gaps(old(h.w)))
    ensures Foreign(old(h.w).files, pkg)
            ==> !ok && !h.call.strayed && h.log == old(h.log) && forall other :: Underway(old(h.w), other) ==> Underway(h.w, other)
  {
    h.call := IDLE.(created := true);
    HalfBuiltIsRefused(h.w, pkg);
    var plan;
    ok, plan, created := Judge(h, pkg);
    RefusedLeaves(old(h.w), old(h.log), h.w, pkg, created, h.stable);
    if ok {
      ghost var w1 := h.w;
      StillRecoverable(old(h.w), w1, h.stable);
      created := plan.created;
      SensibleIsNotForeign(plan, w1, pkg, h.stable);
      ok := RecoverPlanned(h, pkg, plan);
    }
  }

  lemma HalfBuiltIsRefused(w: World, pkg: Package)
    ensures HalfBuilt(w, pkg) ==> !Admissible(w, pkg)
  {
  }

  lemma StillRecoverable(w: World, after: World, stable: bool)
    requires Watched(w, after, stable)
    ensures Recoverable(w) ==> Recoverable(after)
    ensures Credible(w) ==> Credible(after)
    ensures Unmixed(w) ==> Unmixed(after)
    ensures after.files == w.files
  {
    assert Undisturbed(w, after, 1, stable) && Undisturbed(w, after, 2, stable) && Undisturbed(w, after, 3, stable);
  }

  /** What a completed recovery of a recordable package amounts to. */
  lemma ConcludedIsFinished(w: World, pkg: Package, created: set<int>)
    requires Concluded(w, BaseOf(pkg, created)) && Recordable(pkg)
    ensures Finished(w)
  {
    PartitionOfIsPartition(created);
  }

  // ---- restoring a cluster that is still there -------------------------------------------------------

  /** What RestoreHA demands of the durable files before it looks at anything else. */
  predicate RestoreGate(f: Files, pkg: Package) {
    f.config && AllowsRestore(f.journal) && pkg.valid && f.token == Some(pkg.token)
  }

  function RestoreBase(pkg: Package): (r: Journal) {
    Journal(pkg.identity, pkg.path, Validated, false, false, false, None)
  }

  /** What a RestoreHA call leaves behind, whatever happened. */
  twostate predicate RestoreLeaves(h: Host, pkg: Package)
    reads h
  {
    && (h.up ==> old(h.up)) && h.w.lost == old(h.w).lost
    && JournalLeft(old(h.w).files.journal, h.w.files.journal, RestoreBase(pkg))
    && (h.w.files.desired != old(h.w).files.desired ==> OfCall(h.w.files.journal, RestoreBase(pkg)))
    && (h.w.files.journal != old(h.w).files.journal && AllowsSupervision(h.w.files.journal)
        ==> Vouched(h.call) && (h.stable ==> AllUp(h.w)))
    && (!h.call.strayed ==>
          && h.Disciplined()
          && (h.w.files.journal != old(h.w).files.journal && AllowsSupervision(h.w.files.journal) ==> Coherent(h.w)))
    && (h.call.strayed ==> !Coherent(old(h.w)) && !h.call.attempted && Answered(old(h.efforts), h.efforts, RollingBack))
    && (Coherent(old(h.w)) && Vouching(h.w.files.journal) ==> Coherent(h.w))
  }

  /**
  Replace the state of an existing cluster; a journal that demands RecoverHA is never overwritten.
  From volumes of one cluster every command is sound. From others, too, unless the call fails
  before it has issued its own reset and is rolled back by starting the originals.
   */
  method RestoreHA(h: Host, pkg: Package) returns (ok: bool)
    requires h.Valid() && !h.pledged && h.Disciplined()
    requires RestoreGate(h.w.files, pkg) && VolumesComplete(h.w) ==> !h.w.lost
    modifies h`readings, h`efforts, h`w, h`up, h`log, h`call
    ensures h.Valid() && RestoreLeaves(h, pkg) && (ok ==> h.up && !h.call.strayed)
    ensures !RestoreGate(old(h.w).files, pkg) ==> !ok && h.w == old(h.w) && h.log == old(h.log)
    ensures !VolumesComplete(old(h.w)) ==> !ok && h.log == old(h.log) && Watched(old(h.w), h.w, h.stable)
    ensures ok ==> Concluded(h.w, RestoreBase(pkg)) && h.w.files.kubeconfig
    ensures h.reliable && ReadableIntent(old(h.w).files) && old(h.w).helpers[SNAPSHOT].Missing?
            ==> (ok <==> RestoreGate(old(h.w).files, pkg) && old(h.w).network && VolumesComplete(old(h.w)))
    ensures h.reliable && ok && old(h.w).helpers[SNAPSHOT].Missing? && ReadableIntent(old(h.w).files)
            ==> SmoothAt(h.w, h.stableIP, 3, old(h.w).nextCluster)
  {
    h.call := IDLE;
    WatchedNothing(h.w, h.stable);
    ok := h.up && RestoreGate(h.w.files, pkg);
    if !ok {
      return;
    }
    var pf;
    ok, pf := TakePreflight(h, true);
    WatchedKeeps(old(h.w), h.w, h.log, h.call, h.stable);
    StillComplete(old(h.w), h.w, h.stable);
    ok := ok && VolumeCount(pf) == MEMBER_COUNT && pf.network;
    if ok {
      AllSeen(pf, h.w, h.stable);
      hide Coherent, AllUp, Discipline, Watched, Concluded, OfCall, RestoreGate, Vouching, KeptWhole, Vouched;
      ok := RestorePlanned(h, RestoreBase(pkg), pkg, pf);
    }
  }

  lemma StillComplete(w: World, after: World, stable: bool)
    requires Watched(w, after, stable)
    ensures VolumesComplete(w) <==> VolumesComplete(after)
    ensures after.files == w.files && after.lost == w.lost
  {
    assert Undisturbed(w, after, 1, stable) && Undisturbed(w, after, 2, stable) && Undisturbed(w, after, 3, stable);
  }

  lemma AllSeen(pf: Preflight, w: World, stable: bool)
    requires Seen(pf, w, stable) && VolumeCount(pf) == 3
    ensures VolumesComplete(w)
  {
    assert MemberSeen(pf, w, 1, stable) && MemberSeen(pf, w, 2, stable) && MemberSeen(pf, w, 3, stable);
  }

  method RestorePlanned(h: Host, base: Journal, ghost pkg: Package, pf: Preflight) returns (ok: bool)
    requires h.Valid() && !h.pledged && h.Disciplined() && base == RestoreBase(pkg) && !h.w.lost
    requires Seen(pf, h.w, h.stable) && VolumesComplete(h.w) && h.call == IDLE
    modifies h`readings, h`efforts, h`w, h`up, h`log, h`call
    ensures h.Valid() && RestoreLeaves(h, pkg) && (ok ==> h.up && !h.call.strayed)
    ensures ok ==> Concluded(h.w, base) && h.w.files.kubeconfig
    ensures h.reliable && SeenExactly(pf, old(h.w)) && ReadableIntent(old(h.w).files) && old(h.w).helpers[SNAPSHOT].Missing?
            && old(h.w).network && old(h.w).files.config
            ==> ok && SmoothAt(h.w, h.stableIP, 3, old(h.w).nextCluster)
  {
    ok := PrepareStage(h);
    SeenStaged(pf, old(h.w), h.w, h.stable);
    if !ok {
      return;
    }

    ghost var w1 := h.w;
    if h.reliable && old(h.w).helpers[SNAPSHOT].Missing? && old(h.w).network && old(h.w).files.config {
      assert Prepared(w1) && (SeenExactly(pf, old(h.w)) ==> SeenExactly(pf, w1));
    }
    ok := RestoreAndClean(h, base, pkg, pf);
  }

  method RestoreAndClean(h: Host, base: Journal, ghost pkg: Package, pf: Preflight) returns (ok: bool)
    requires h.Valid() && !h.pledged && h.Disciplined() && base == RestoreBase(pkg) && !h.w.lost
    requires Seen(pf, h.w, h.stable) && h.w.files.staging.CompleteStage?
    modifies h`readings, h`efforts, h`w, h`up, h`log, h`call
    ensures h.Valid() && RestoreLeaves(h, pkg) && (ok ==> h.up && !h.call.strayed)
    ensures ok ==> Concluded(h.w, base) && h.w.files.kubeconfig
    ensures h.reliable && Prepared(old(h.w)) && SeenExactly(pf, old(h.w)) && ReadableIntent(old(h.w).files)
            ==> ok && SmoothAt(h.w, h.stableIP, 3, old(h.w).nextCluster)
  {
    hide Seen, SeenExactly, Prepared, Discipline, OfCall, AllUp, Coherent, KeptWhole, Vouched, Blocking, AllowsSupervision;
    ok := RestoreValidated(h, base, pf);
    ghost var w2, l2 := h.w, h.log;
    RestoredVouches(old(h.w), w2, h.call, base);
    var cleaned := CleanupStage(h);
    StagedRestore(w2, h.w, h.stable);
    ok := ok && cleaned;
  }

  /** What the journal of a call over preexisting volumes vouches for. */
  lemma RestoredVouches(w: World, after: World, call: Call, base: Journal)
    requires NewMembers(base) == {}
    ensures Mixed(w, base) <==> !Coherent(w)
    ensures Coherent(w) && Answerable(w, after) && Marked(after, call) && !call.created && !call.mixed && Vouching(after.files.journal) ==> Coherent(after)
    ensures after.files.journal != w.files.journal && Answerable(w, after) && AllowsSupervision(after.files.journal) ==> Coherent(after)
  {
  }

  lemma StagedRestore(w: World, after: World, stable: bool)
    requires Evolved(w, WithStaging(after, w.files.staging), {}, RECOVERERS, stable) && Lineal(w, after)
    ensures Coherent(w) ==> Coherent(after)
    ensures stable && AllUp(w) ==> AllUp(after)
  {
    var same := WithStaging(after, w.files.staging);
    assert Undisturbed(w, same, 1, stable) && Undisturbed(w, same, 2, stable) && Undisturbed(w, same, 3, stable);
  }

  lemma SeenStaged(pf: Preflight, w: World, after: World, stable: bool)
    requires Seen(pf, w, stable) && Evolved(w, WithStaging(after, w.files.staging), {}, RECOVERERS, stable)
    ensures Seen(pf, after, stable)
  {
    var same := WithStaging(after, w.files.staging);
    SeenThrough(pf, w, same, RECOVERERS, stable);
    SeenWhateverFiles(pf, same, after, stable);
  }
}
