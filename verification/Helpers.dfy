/**
Recovery helpers and the staging directory: helper containers are removed only after inspection
confirms what they are and that they are gone, and the directory the reset helper mounts is
built and removed only while that helper does not exist.
 */
module Helpers {
  import opened Options
  import opened Journals
  import opened Worlds
  import opened Hosts

  lemma ChainHelped(w0: World, l0: seq<Entry>, w1: World, l1: seq<Entry>, w2: World, l2: seq<Entry>, h: set<int>, stable: bool)
    requires Evolved(w0, w1, {}, h, stable) && Lineal(w0, w1) && Confined(l0, l1, w0, {}, stable)
    requires Evolved(w1, w2, {}, h, stable) && Lineal(w1, w2) && Confined(l1, l2, w1, {}, stable)
    requires h <= HELPERS
    ensures Evolved(w0, w2, {}, h, stable) && Lineal(w0, w2) && Confined(l0, l2, w0, {}, stable)
  {
    Chain(w0, l0, w1, l1, w2, l2, {}, h, stable);
    LinealTrans(w0, w1, w2);
  }

  lemma WatchingIsHelping(w0: World, w1: World, log: seq<Entry>, h: set<int>, stable: bool)
    requires Watched(w0, w1, stable)
    ensures Evolved(w0, w1, {}, h, stable) && Lineal(w0, w1) && Confined(log, log, w0, {}, stable)
  {
    EvolvedWidens(w0, w1, {}, {}, {}, h, stable);
  }

  method SeeHelper(h: Host, k: int) returns (ok: bool, e: Envelope)
    requires h.Valid() && 0 <= k <= 3
    modifies h`w
    ensures h.Valid() && h.HelpedWith({k}) && h.log == old(h.log)
    ensures ok ==> h.up && e == h.w.helpers[k]
    ensures h.reliable ==> ok && h.w == old(h.w)
    ensures old(h.w).helpers[k].Missing? ==> h.w.helpers[k].Missing?
  {
    ok, e := h.InspectHelper(k);
    WatchingIsHelping(old(h.w), h.w, h.log, {k}, h.stable);
    assert HelperUndisturbed(old(h.w), h.w, k);
  }

  /** Bring a running helper to a stop; success is what inspection shows, not what the stop reports. */
  method QuietHelper(h: Host, k: int) returns (ok: bool, e: Envelope)
    requires h.Valid() && 0 <= k <= 3
    modifies h`w, h`up, h`log
    ensures h.Valid() && h.HelpedWith({k}) && (ok ==> h.up)
    ensures ok ==> e == h.w.helpers[k] && !e.Running?
    ensures h.reliable && old(h.w).helpers[k].Running? ==> ok && h.w == SetHelper(old(h.w), k, Stopped)
  {
    ghost var w0, l0 := h.w, h.log;
    var stopped := h.EndHelper(k);
    ghost var w1, l1 := h.w, h.log;
    var found;
    found, e := SeeHelper(h, k);
    ChainHelped(w0, l0, w1, l1, h.w, h.log, {k}, h.stable);
    ok := found && !e.Running?;
  }

  /** Remove a helper container for certain: only an inspection that no longer finds it counts. */
  method RetireHelper(h: Host, k: int) returns (ok: bool)
    requires h.Valid() && 0 <= k <= 3
    modifies h`w, h`up, h`log
    ensures h.Valid() && h.HelpedWith({k}) && (ok ==> h.up)
    ensures ok ==> h.w.helpers[k].Missing?
    ensures h.reliable ==> ok && h.w == SetHelper(old(h.w), k, Missing)
  {
    hide Evolved, Lineal, Confined, Discipline;
    ghost var w0, l0 := h.w, h.log;
    NothingIsConfined(h.log, h.w, {}, {k}, h.stable);
    assert h.w.helpers[k := h.w.helpers[k]] == h.w.helpers;
    var e;
    ok, e := SeeHelper(h, k);
    if !ok || e.Missing? {
      return;
    }

    ghost var w1, l1 := h.w, h.log;
    if e.Running? {
      ok, e := QuietHelper(h, k);
      ChainHelped(w0, l0, w1, l1, h.w, h.log, {k}, h.stable);
      if !ok || e.Missing? {
        return;
      }
    }

    ghost var w2, l2 := h.w, h.log;
    ok := DeleteStoppedHelper(h, k);
    ChainHelped(w0, l0, w2, l2, h.w, h.log, {k}, h.stable);
  }

  method DeleteStoppedHelper(h: Host, k: int) returns (ok: bool)
    requires h.Valid() && 0 <= k <= 3
    modifies h`w, h`up, h`log
    ensures h.Valid() && h.HelpedWith({k}) && (ok ==> h.up)
    ensures ok ==> h.w.helpers[k].Missing?
    ensures h.reliable && old(h.w).helpers[k].Stopped? ==> ok && h.w == SetHelper(old(h.w), k, Missing)
  {
    var deleted := h.RemoveHelper(k);
    ghost var w1, l1 := h.w, h.log;
    var found, e := SeeHelper(h, k);
    ChainHelped(old(h.w), old(h.log), w1, l1, h.w, h.log, {k}, h.stable);
    ok := found && e.Missing?;
  }

  /** Start a helper only when inspection shows that none exists under its name. */
  method LaunchHelper(h: Host, k: int) returns (ok: bool)
    requires h.Valid() && 0 <= k <= 3 && k != RESET
    modifies h`w, h`up, h`log
    ensures h.Valid() && h.HelpedWith({k}) && (ok ==> h.up)
    ensures forall n | |old(h.log)| <= n < |h.log| :: h.log[n].cmd == RunHelper(k) && h.log[n].before.helpers[k].Missing?
    ensures h.reliable && old(h.w).helpers[k].Missing? ==> ok && h.w == Effect(old(h.w), RunHelper(k))
  {
    var found, e := SeeHelper(h, k);
    if !found || !e.Missing? {
      return false;
    }

    ghost var w1, l1 := h.w, h.log;
    ok := h.StartHelper(k);
    ChainHelped(old(h.w), old(h.log), w1, l1, h.w, h.log, {k}, h.stable);
  }

  /** The reset helper and the clearing helpers; the snapshot copier is none of a restore's business. */
  const RECOVERERS := {1, 2, 3}

  predicate NoHelpers(w: World) {
    w.helpers[0].Missing? && w.helpers[1].Missing? && w.helpers[2].Missing? && w.helpers[3].Missing?
  }

  lemma HelpedWidely(w0: World, l0: seq<Entry>, w1: World, l1: seq<Entry>, w2: World, l2: seq<Entry>, k: int, stable: bool)
    requires 1 <= k <= 3
    requires Evolved(w0, w1, {}, RECOVERERS, stable) && Lineal(w0, w1) && Confined(l0, l1, w0, {}, stable)
    requires Evolved(w1, w2, {}, {k}, stable) && Lineal(w1, w2) && Confined(l1, l2, w1, {}, stable)
    ensures Evolved(w0, w2, {}, RECOVERERS, stable) && Lineal(w0, w2) && Confined(l0, l2, w0, {}, stable)
    ensures forall j | 0 <= j <= 3 && j != k && w1.helpers[j].Missing? :: w2.helpers[j].Missing?
  {
    EvolvedWidens(w1, w2, {}, {}, {k}, RECOVERERS, stable);
    ChainHelped(w0, l0, w1, l1, w2, l2, RECOVERERS, stable);
    forall j | 0 <= j <= 3 && j != k && w1.helpers[j].Missing? ensures w2.helpers[j].Missing? {
      assert HelperUndisturbed(w1, w2, j);
    }
  }

  /** Remove what an interrupted restore left behind: the reset helper, then the clearing helpers. */
  method CleanupStaleHelpers(h: Host) returns (ok: bool)
    requires h.Valid()
    modifies h`w, h`up, h`log
    ensures h.Valid() && h.HelpedWith(RECOVERERS) && (ok ==> h.up)
    ensures ok ==> h.w.helpers[1].Missing? && h.w.helpers[2].Missing? && h.w.helpers[3].Missing?
    ensures h.reliable ==> ok && h.w == old(h.w).(helpers := [old(h.w).helpers[0], Missing, Missing, Missing])
  {
    NothingIsConfined(h.log, h.w, {}, RECOVERERS, h.stable);
    for k := 1 to 4
      invariant h.Valid() && h.HelpedWith(RECOVERERS) && (k > 1 ==> h.up)
      invariant forall j | 1 <= j < k :: h.w.helpers[j].Missing?
      invariant h.reliable ==> h.w == old(h.w).(helpers := h.w.helpers)
      invariant h.reliable ==> forall j | 0 <= j <= 3 :: h.w.helpers[j] == if 1 <= j < k then Missing else old(h.w).helpers[j]
    {
      ghost var w1, l1 := h.w, h.log;
      ok := RetireHelper(h, k);
      HelpedWidely(old(h.w), old(h.log), w1, l1, h.w, h.log, k, h.stable);
      if !ok {
        return;
      }
    }
    assert h.reliable ==> h.w.helpers == [old(h.w).helpers[0], Missing, Missing, Missing];
    ok := true;
  }

  /** Refuse to go on while any recovery helper, the snapshot copier included, exists. */
  method EnsureNoHelpers(h: Host) returns (ok: bool)
    requires h.Valid()
    modifies h`w
    ensures h.Valid() && h.OnlyWatched() && (ok ==> h.up)
    ensures ok ==> NoHelpers(h.w)
    ensures h.reliable ==> (ok <==> NoHelpers(h.w))
  {
    WatchedNothing(h.w, h.stable);
    for k := 0 to 4
      invariant h.Valid() && h.OnlyWatched() && (k > 0 ==> h.up)
      invariant forall j | 0 <= j < k :: h.w.helpers[j].Missing?
    {
      ghost var w1 := h.w;
      var found, e := h.InspectHelper(k);
      WatchedTrans(old(h.w), w1, h.w, h.stable);
      if !found || !e.Missing? {
        return false;
      }
      forall j | 0 <= j < k ensures h.w.helpers[j].Missing? {
        assert w1.helpers[j].Missing? && HelperUndisturbed(w1, h.w, j);
      }
    }
    return true;
  }

  // ---- staging directory ------------------------------------------------------------------------

  function WithStaging(w: World, s: Staging): (r: World) {
    w.(files := w.files.(staging := s))
  }

  /** Only the staging directory changed on disk; helpers may have gone. */
  twostate predicate Staged(h: Host)
    reads h
  {
    && (h.up ==> old(h.up)) && h.call == old(h.call)
    && h.w.files == old(h.w).files.(staging := h.w.files.staging)
    && Evolved(old(h.w), WithStaging(h.w, old(h.w).files.staging), {}, RECOVERERS, h.stable)
    && Lineal(old(h.w), h.w)
    && (old(h.Disciplined()) ==> h.Disciplined())
  }

  method PutStage(h: Host, s: Staging) returns (ok: bool)
    requires h.Valid() && !h.pledged
    requires h.w.helpers[RESET].Missing? || s.CompleteStage?
    modifies h`w, h`up, h`call
    ensures h.Valid() && (h.up ==> old(h.up)) && (ok ==> h.up) && h.call == old(h.call)
    ensures h.w == WithStaging(old(h.w), h.w.files.staging) && h.w.files.staging in {s, old(h.w).files.staging}
    ensures ok ==> h.w.files.staging == s
    ensures old(h.Disciplined()) ==> h.Disciplined()
    ensures h.reliable ==> ok
  {
    hide KeptWhole, Discipline;
    RestagedIsDisciplined(h.w, h.log, s);
    ok := h.Write(PutStaging(s));
  }

  lemma RestagedIsDisciplined(w: World, log: seq<Entry>, s: Staging)
    requires w.helpers[RESET].Missing? || s.CompleteStage?
    ensures Discipline(w, log) ==> Discipline(WithStaging(w, s), log)
    ensures WithStaging(w, w.files.staging) == w
  {
    hide AllSound;
  }

  /** Remove what is there, then copy the three artifacts; a failed copy is removed again. */
  method BuildStage(h: Host) returns (ok: bool)
    requires h.Valid() && !h.pledged && h.w.helpers[RESET].Missing?
    modifies h`w, h`up, h`call
    ensures h.Valid() && (h.up ==> old(h.up)) && (ok ==> h.up) && h.call == old(h.call)
    ensures h.w == WithStaging(old(h.w), h.w.files.staging)
    ensures ok ==> h.w.files.staging.CompleteStage?
    ensures old(h.Disciplined()) ==> h.Disciplined()
    ensures h.reliable ==> ok
  {
    hide KeptWhole;
    if !h.w.files.staging.NoStage? {
      ok := PutStage(h, NoStage);
      if !ok {
        return;
      }
    }
    ok := PutStage(h, PartialStage);
    if !ok {
      return;
    }
    var copied: bool := *;
    if copied || h.reliable {
      ok := PutStage(h, CompleteStage);
    } else {
      ok := false;
    }
    if !ok {
      var removed := PutStage(h, NoStage);
    }
  }

  method RuleOutHelpers(h: Host) returns (ok: bool)
    requires h.Valid()
    modifies h`w, h`up, h`log
    ensures h.Valid() && h.HelpedWith(RECOVERERS) && (ok ==> h.up)
    ensures ok ==> NoHelpers(h.w)
    ensures h.reliable && old(h.w).helpers[0].Missing?
            ==> ok && h.w == old(h.w).(helpers := [Missing, Missing, Missing, Missing])
  {
    ok := CleanupStaleHelpers(h);
    if !ok {
      return;
    }

    ghost var w1, l1 := h.w, h.log;
    ok := EnsureNoHelpers(h);
    WatchingIsHelping(w1, h.w, h.log, RECOVERERS, h.stable);
    ChainHelped(old(h.w), old(h.log), w1, l1, h.w, h.log, RECOVERERS, h.stable);
  }

  method PrepareStage(h: Host) returns (ok: bool)
    requires h.Valid() && !h.pledged
    modifies h`w, h`up, h`log, h`call
    ensures h.Valid() && Staged(h) && (ok ==> h.up)
    ensures ok ==> NoHelpers(h.w) && h.w.files.staging.CompleteStage?
    ensures h.reliable && old(h.w).helpers[0].Missing?
            ==> ok && h.w == WithStaging(old(h.w), CompleteStage).(helpers := [Missing, Missing, Missing, Missing])
  {
    hide KeptWhole, Discipline, Lineal, Confined;
    ok := RuleOutHelpers(h);
    ghost var w1 := h.w;
    LinealWhateverStage(old(h.w), w1, w1);
    if !ok {
      return;
    }
    ok := BuildStage(h);
    LinealWhateverStage(old(h.w), w1, h.w);
  }

  /** Lineage is a matter of members and helpers alone. */
  lemma LinealWhateverStage(found: World, w: World, after: World)
    requires Lineal(found, w) && after == WithStaging(w, after.files.staging)
    ensures Lineal(found, after) && WithStaging(after, w.files.staging) == w
  {
    forall cleared: set<int> | Rejoining(found, cleared) ensures Rejoining(after, cleared) {
      assert Rejoining(w, cleared);
    }
  }

  /** Keep the directory for as long as a reset helper exists or cannot be ruled out. */
  method CleanupStage(h: Host) returns (ok: bool)
    requires h.Valid() && !h.pledged
    modifies h`w, h`up, h`log, h`call
    ensures h.Valid() && Staged(h) && (ok ==> h.up)
    ensures h.log == old(h.log)
    ensures ok ==> h.w.files.staging.NoStage?
    ensures h.reliable && old(h.w).helpers[RESET].Missing? ==> ok && h.w == WithStaging(old(h.w), NoStage)
  {
    hide KeptWhole, Discipline, Lineal, Confined, Evolved;
    var found, e := SeeHelper(h, RESET);
    ghost var w1 := h.w;
    EvolvedWidens(old(h.w), w1, {}, {}, {RESET}, RECOVERERS, h.stable);
    LinealWhateverStage(old(h.w), w1, w1);
    if !found || !e.Missing? {
      return false;
    }
    ok := PutStage(h, NoStage);
    LinealWhateverStage(old(h.w), w1, h.w);
  }
}
