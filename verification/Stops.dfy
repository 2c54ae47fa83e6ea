/** Stopping every server a preflight found running, from the last member to the first. */
module Stops {
  import opened Options
  import opened Journals
  import opened Worlds
  import opened Hosts
  import opened Envelopes
  import opened Statuses

  function From(i: int): (r: set<int>) {
    if i <= 1 then {1, 2, 3} else if i == 2 then {2, 3} else if i == 3 then {3} else {}
  }

  /** Everything but the envelopes is as it was. */
  predicate OnlyStopped(w: World, after: World) {
    && after == w.(members := after.members)
    && (forall i | 1 <= i <= 3 :: after.members[i].data == w.members[i].data)
    && (forall i | 1 <= i <= 3 :: after.members[i].envelope == w.members[i].envelope
                                  || (Up(w, i) && after.members[i].envelope.Stopped?))
  }

  ghost predicate OnlyStops(was: seq<Entry>, log: seq<Entry>) {
    && was <= log
    && (forall k | |was| <= k < |log| :: log[k].cmd.StopServer?)
  }

  /** Servers were stopped, nothing else was done, and lineage is as it was. */
  twostate predicate StoppedSome(h: Host, touched: set<int>)
    reads h
  {
    && (h.up ==> old(h.up)) && h.call == old(h.call)
    && Evolved(old(h.w), h.w, touched, {}, h.stable) && Lineal(old(h.w), h.w)
    && OnlyStops(old(h.log), h.log)
    && (old(h.Guarded()) ==> h.Guarded())
  }

  lemma ChainStops(w0: World, l0: seq<Entry>, w1: World, l1: seq<Entry>, w2: World, l2: seq<Entry>, i: Id, stable: bool)
    requires Evolved(w0, w1, From(i + 1), {}, stable) && Lineal(w0, w1) && OnlyStops(l0, l1)
    requires Evolved(w1, w2, {i}, {}, stable) && Lineal(w1, w2) && OnlyStops(l1, l2)
    ensures Evolved(w0, w2, From(i), {}, stable) && Lineal(w0, w2) && OnlyStops(l0, l2)
  {
    EvolvedTrans(w0, w1, w2, From(i + 1), {i}, {}, {}, stable);
    assert From(i + 1) + {i} == From(i);
    LinealTrans(w0, w1, w2);
    OnlyStopsTrans(l0, l1, l2);
  }

  lemma OnlyStopsTrans(l0: seq<Entry>, l1: seq<Entry>, l2: seq<Entry>)
    requires OnlyStops(l0, l1) && OnlyStops(l1, l2)
    ensures OnlyStops(l0, l2)
  {
    forall k | |l0| <= k < |l2| ensures l2[k].cmd.StopServer? {
      if k < |l1| {
        assert l2[k] == l1[k];
      }
    }
  }

  lemma OneStopped(w: World, after: World, i: Id, stable: bool)
    requires Evolved(w, after, {i}, {}, stable)
    requires EnvelopeDrift(w.members[i].envelope, after.members[i].envelope, false)
    ensures NoneStarted(w, after)
  {
    assert i == 1 || Undisturbed(w, after, 1, stable);
    assert i == 2 || Undisturbed(w, after, 2, stable);
    assert i == 3 || Undisturbed(w, after, 3, stable);
  }

  lemma OnlyStoppedTrans(a: World, b: World, c: World)
    requires OnlyStopped(a, b) && OnlyStopped(b, c)
    ensures OnlyStopped(a, c)
  {
    forall i | 1 <= i <= 3
      ensures c.members[i].data == a.members[i].data
      ensures c.members[i].envelope == a.members[i].envelope || (Up(a, i) && c.members[i].envelope.Stopped?)
    {
      assert b.members[i].data == a.members[i].data && c.members[i].data == b.members[i].data;
    }
  }

  /** Stop one member unless the preflight saw it stopped or missing. */
  method StopUnlessDown(h: Host, i: Id, seen: Envelope) returns (ok: bool)
    requires h.Valid() && (Up(h.w, i) ==> seen.Running?)
    modifies h`w, h`up, h`log
    ensures h.Valid() && StoppedSome(h, {i})
    ensures ok ==> !Up(h.w, i)
    ensures NoneStarted(old(h.w), h.w)
    ensures !seen.Running? ==> h.w == old(h.w) && h.log == old(h.log)
    ensures |h.log| <= |old(h.log)| + 1 && forall k | |old(h.log)| <= k < |h.log| :: h.log[k].cmd == StopServer(i)
    ensures h.reliable && (seen.Running? ==> Up(old(h.w), i)) ==> ok && OnlyStopped(old(h.w), h.w)
  {
    NothingIsConfined(h.log, h.w, {i}, {}, h.stable);
    ok := true;
    if seen.Running? {
      ok := h.Stop(i);
      OneStopped(old(h.w), h.w, i, h.stable);
    }
  }

  predicate NoneStarted(w: World, after: World) {
    (Up(after, 1) ==> Up(w, 1)) && (Up(after, 2) ==> Up(w, 2)) && (Up(after, 3) ==> Up(w, 3))
  }

  /** The commands since then stop servers with IDs above `i`, each at most once, the last member first. */
  ghost predicate LastFirst(log: seq<Entry>, since: nat, i: int) {
    && since <= |log|
    && (forall k | since <= k < |log| :: log[k].cmd.StopServer? && log[k].cmd.id > i)
    && (forall j, k | since <= j < k < |log| :: log[j].cmd.id > log[k].cmd.id)
  }

  lemma OneMoreStop(log: seq<Entry>, now: seq<Entry>, since: nat, i: int)
    requires log <= now && |now| <= |log| + 1
    requires forall k | |log| <= k < |now| :: now[k].cmd.StopServer? && now[k].cmd.id == i
    ensures since == |log| || LastFirst(log, since, i) ==> LastFirst(now, since, i - 1)
    ensures since == |log| == |now| ==> LastFirst(now, since, i)
    ensures LastFirst(log, since, i) && i >= 0 ==> LastFirst(log, since, 0)
  {
  }

  /** As above for all three, in descending order, giving up at the first failure. */
  method StopRecorded(h: Host, pf: Preflight) returns (ok: bool)
    requires h.Valid() && Seen(pf, h.w, h.stable)
    modifies h`w, h`up, h`log
    ensures h.Valid() && StoppedSome(h, {1, 2, 3})
    ensures ok ==> AllDown(h.w)
    ensures LastFirst(h.log, |old(h.log)|, 0)
    ensures h.reliable && SeenExactly(pf, old(h.w)) ==> ok && OnlyStopped(old(h.w), h.w)
    ensures !pf.records[1].Running? && !pf.records[2].Running? && !pf.records[3].Running? ==> h.w == old(h.w) && h.log == old(h.log)
  {
    hide KeptWhole;
    hide Lineal, Guard, LastFirst;
    NothingIsConfined(h.log, h.w, {}, {}, h.stable);
    OneMoreStop(h.log, h.log, |h.log|, 3);
    assert NoneStarted(h.w, h.w);
    assert MemberSeen(pf, h.w, 1, h.stable) && MemberSeen(pf, h.w, 2, h.stable) && MemberSeen(pf, h.w, 3, h.stable);
    ok := true;
    var i := MEMBER_COUNT;
    while i >= 1 && ok
      invariant 0 <= i <= 3
      invariant h.Valid() && StoppedSome(h, From(i + 1))
      invariant NoneStarted(old(h.w), h.w)
      invariant LastFirst(h.log, |old(h.log)|, i)
      invariant !pf.records[1].Running? && !pf.records[2].Running? && !pf.records[3].Running? ==> h.w == old(h.w) && h.log == old(h.log)
      invariant h.reliable && SeenExactly(pf, old(h.w)) ==> ok && OnlyStopped(old(h.w), h.w)
      invariant ok ==> (i < 3 ==> !Up(h.w, 3)) && (i < 2 ==> !Up(h.w, 2)) && (i < 1 ==> !Up(h.w, 1))
    {
      ghost var w1, l1 := h.w, h.log;
      assert Undisturbed(old(h.w), h.w, i, h.stable);
      ok := StopUnlessDown(h, i, pf.records[i]);
      ChainStops(old(h.w), old(h.log), w1, l1, h.w, h.log, i, h.stable);
      OneMoreStop(l1, h.log, |old(h.log)|, i);
      if h.reliable && SeenExactly(pf, old(h.w)) {
        OnlyStoppedTrans(old(h.w), w1, h.w);
      }
      i := i - 1;
    }
    OneMoreStop(h.log, h.log, |old(h.log)|, i);
    EvolvedWidens(old(h.w), h.w, From(i + 1), {1, 2, 3}, {}, {}, h.stable);
  }
}
