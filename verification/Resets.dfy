/**
The two destructive steps of a restore: resetting the seed from the snapshot, and emptying a
peer's database so that it can rejoin the restored cluster.
 */
module Resets {
  import opened Options
  import opened Journals
  import opened Worlds
  import opened Hosts
  import opened Envelopes
  import opened Helpers

  /** After the reset was attempted: nothing runs unless the reset was confirmed. */
  ghost predicate ResetPending(h: Host)
    reads h
  {
    h.Guarded() && AllDown(h.w) && h.w.files.staging.CompleteStage?
  }

  /** After a confirmed reset. */
  ghost predicate RestoredAt(w: World, log: seq<Entry>, call: Call) {
    Guard(w, log, call) && call.attempted && call.confirmed && Rejoining(w, call.cleared)
  }

  ghost predicate Restored(h: Host)
    reads h
  {
    RestoredAt(h.w, h.log, h.call)
  }

  lemma HelpingKeeps(w: World, log: seq<Entry>, after: World, now: seq<Entry>, call: Call, helpers: set<int>, stable: bool)
    requires Evolved(w, after, {}, helpers, stable) && Lineal(w, after)
    requires Discipline(w, log) ==> Discipline(after, now)
    ensures Guard(w, log, call) ==> Guard(after, now, call)
    ensures RestoredAt(w, log, call) ==> RestoredAt(after, now, call)
  {
  }

  /** Work on the reset helper and the seed volume it writes. */
  twostate predicate ResetWork(h: Host)
    reads h
  {
    && (h.up ==> old(h.up))
    && h.call == old(h.call).(attempted := h.call.attempted, confirmed := h.call.confirmed)
    && (old(h.call.attempted) ==> h.call.attempted) && (old(h.call.confirmed) ==> h.call.confirmed)
    && Evolved(old(h.w), h.w, {}, {RESET}, h.stable)
    && (old(ResetPending(h)) ==> ResetPending(h))
  }

  /**
  Run the reset helper until it neither collides nor leaves itself behind. Success means the
  runtime confirmed the reset and the helper is known to be gone.
   */
  method ResetSeed(h: Host) returns (ok: bool)
    requires h.Valid() && !h.pledged
    modifies h`w, h`up, h`log, h`call
    ensures h.Valid() && ResetWork(h) && (ok ==> h.up)
    ensures ok ==> h.call.attempted && h.call.confirmed && h.w.members[SEED].data.Lineage? && h.w.helpers[RESET].Missing?
    ensures h.reliable && Possible(old(h.w), RunReset) ==> ok && h.w == ResetWorld(old(h.w))
  {
    ok := ResetHelperIsNew(h);
    if !ok {
      return;
    }

    ghost var w1 := h.w;
    ok := ResetUntilClear(h);
    EvolvedTrans(old(h.w), w1, h.w, {}, {}, {RESET}, {RESET}, h.stable);
  }

  method ResetHelperIsNew(h: Host) returns (ok: bool)
    requires h.Valid()
    modifies h`w
    ensures h.Valid() && ResetWork(h) && h.call == old(h.call) && (ok ==> h.up)
    ensures h.reliable ==> h.w == old(h.w) && (ok <==> h.w.helpers[RESET].Missing?)
  {
    var found, e := SeeHelper(h, RESET);
    HelpingKeeps(old(h.w), h.log, h.w, h.log, h.call, {RESET}, h.stable);
    ok := found && e.Missing?;
  }

  method ResetUntilClear(h: Host) returns (ok: bool)
    requires h.Valid() && !h.pledged
    modifies h`w, h`up, h`log, h`call
    ensures h.Valid() && ResetWork(h) && (ok ==> h.up)
    ensures ok ==> h.call.attempted && h.call.confirmed && h.w.members[SEED].data.Lineage? && h.w.helpers[RESET].Missing?
    ensures h.reliable && Possible(old(h.w), RunReset) ==> ok && h.w == ResetWorld(old(h.w))
  {
    hide KeptWhole;
    NothingIsConfined(h.log, h.w, {}, {RESET}, h.stable);
    for attempt := 1 to ADDRESS_ATTEMPTS + 1
      invariant h.Valid() && ResetWork(h)
      invariant h.reliable && Possible(old(h.w), RunReset) ==> attempt == 1 && h.w == old(h.w)
    {
      ghost var w1 := h.w;
      var collided;
      ok, collided := TryReset(h);
      EvolvedTrans(old(h.w), w1, h.w, {}, {}, {RESET}, {RESET}, h.stable);
      if !collided || !ok {
        return ok && !collided;
      }
    }
    return false;
  }

  function ResetWorld(w: World): (r: World) {
    SetHelper(w, RESET, Missing).(members := w.members[SEED := w.members[SEED].(data := Lineage(w.nextCluster))],
                                  nextCluster := w.nextCluster + 1)
  }

  method TryReset(h: Host) returns (ok: bool, collided: bool)
    requires h.Valid() && !h.pledged
    modifies h`w, h`up, h`log, h`call
    ensures h.Valid() && ResetWork(h) && (ok ==> h.up) && h.call.attempted
    ensures ok ==> h.w.helpers[RESET].Missing?
    ensures ok && !collided ==> h.call.confirmed && h.w.members[SEED].data.Lineage?
    ensures h.reliable && Possible(old(h.w), RunReset) ==> ok && !collided && h.w == ResetWorld(old(h.w))
  {
    var report := h.Reset();
    ghost var w1, l1 := h.w, h.log;
    var cleaned := RetireHelper(h, RESET);
    EvolvedTrans(old(h.w), w1, h.w, {}, {}, {RESET}, {RESET}, h.stable);
    if old(ResetPending(h)) {
      HelpingKeeps(w1, l1, h.w, h.log, h.call, {RESET}, h.stable);
    }
    ok := cleaned && !report.Rejected?;
    collided := report.Collided?;
  }

  /** Empty one peer's database: its envelope must be stopped and gone, and its helper new. */
  method ClearPeer(h: Host, i: Id) returns (ok: bool)
    requires h.Valid() && !h.pledged
    modifies h`w, h`up, h`log, h`call
    ensures h.Valid() && (h.up ==> old(h.up)) && (ok ==> h.up)
    ensures h.call == old(h.call).(cleared := h.call.cleared) && h.call.cleared - {i} == old(h.call.cleared) - {i}
    ensures ok ==> i in h.call.cleared
    ensures i == SEED ==> !ok && h.w == old(h.w)
    ensures Evolved(old(h.w), h.w, {i}, {i}, h.stable) && LineagesKept(old(h.w), h.w, i)
    ensures old(Restored(h)) ==> Restored(h)
    ensures ok ==> h.w.members[i].envelope.Missing?
    ensures h.reliable && i != SEED && !Up(old(h.w), i) && old(h.w).helpers[i].Missing? && !old(h.w).members[i].data.Absent?
            ==> ok && h.w == SetData(SetEnvelope(old(h.w), i, Missing), i, Blank)
  {
    if i == SEED {
      return false;
    }
    ok := MountPeer(h, i);
    if !ok {
      return;
    }

    ghost var w1 := h.w;
    var cleared, removed := WipeAndRetire(h, i);
    EvolvedTrans(old(h.w), w1, h.w, {i}, {}, {i}, {i}, h.stable);
    ok := cleared && removed;
  }

  method MountPeer(h: Host, i: Id) returns (ok: bool)
    requires h.Valid() && i != SEED
    modifies h`w, h`up, h`log
    ensures h.Valid() && (h.up ==> old(h.up)) && (ok ==> h.up)
    ensures Evolved(old(h.w), h.w, {i}, {i}, h.stable) && LineagesKept(old(h.w), h.w, i)
    ensures old(Restored(h)) ==> Restored(h)
    ensures ok ==> h.w.members[i].envelope.Missing?
    ensures h.reliable && !Up(old(h.w), i) && old(h.w).helpers[i].Missing?
            ==> ok && h.w == Effect(SetEnvelope(old(h.w), i, Missing), RunHelper(i))
  {
    ok := DeleteStopped(h, i);
    EvolvedWidens(old(h.w), h.w, {i}, {i}, {}, {i}, h.stable);
    if !ok {
      return;
    }

    ghost var w1, l1 := h.w, h.log;
    ok := LaunchHelper(h, i);
    if old(Restored(h)) {
      HelpingKeeps(w1, l1, h.w, h.log, h.call, {i}, h.stable);
    }
    EvolvedTrans(old(h.w), w1, h.w, {i}, {}, {}, {i}, h.stable);
    assert Undisturbed(w1, h.w, i, h.stable);
  }

  lemma StillMissing(w: World, after: World, i: Id, helpers: set<int>, stable: bool)
    requires Evolved(w, after, {}, helpers, stable) && w.members[i].envelope.Missing?
    ensures after.members[i].envelope.Missing?
  {
    assert Undisturbed(w, after, i, stable);
  }

  /** Wipe through the running helper, then remove the helper whatever the wipe reported. */
  method WipeAndRetire(h: Host, i: Id) returns (cleared: bool, removed: bool)
    requires h.Valid() && !h.pledged && i != SEED && h.w.members[i].envelope.Missing?
    modifies h`w, h`up, h`log, h`call
    ensures h.Valid() && (h.up ==> old(h.up)) && (removed ==> h.up)
    ensures h.call == old(h.call).(cleared := h.call.cleared) && h.call.cleared - {i} == old(h.call.cleared) - {i}
    ensures cleared ==> i in h.call.cleared
    ensures Evolved(old(h.w), h.w, {}, {i}, h.stable) && LineagesKept(old(h.w), h.w, i)
    ensures old(Restored(h)) ==> Restored(h)
    ensures h.w.members[i].envelope.Missing?
    ensures h.reliable && Possible(old(h.w), ClearDatabase(i))
            ==> cleared && removed && h.w == SetHelper(SetData(old(h.w), i, Blank), i, Missing)
  {
    hide KeptWhole, Outcome, Lineal, Confined, Evolved, Rejoining, Discipline;
    cleared := h.Clear(i);
    ghost var w1, l1 := h.w, h.log;
    removed := RetireHelper(h, i);
    if old(Restored(h)) {
      HelpingKeeps(w1, l1, h.w, h.log, h.call, {i}, h.stable);
    }
    StillMissing(old(h.w), w1, i, {}, h.stable);
    StillMissing(w1, h.w, i, {i}, h.stable);
    EvolvedWidens(old(h.w), w1, {}, {}, {}, {i}, h.stable);
    EvolvedTrans(old(h.w), w1, h.w, {}, {}, {i}, {i}, h.stable);
    ghost var none: set<int> := {};
    assert {i} + {i} == {i} && none + none == none;
    LinealKeepsLineages(w1, h.w);
    LineagesKeptTrans(old(h.w), w1, h.w, i);
  }
}
