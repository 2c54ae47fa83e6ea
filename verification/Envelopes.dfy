/**
Server envelopes: starting one on an address no other member has reserved, and removing exactly
one. The runtime assigns addresses itself, so a start may have to be undone and tried again.
 */
module Envelopes {
  import opened Options
  import opened Journals
  import opened Worlds
  import opened Hosts

  /** The retry limit equals the number of members. */
  const ADDRESS_ATTEMPTS := MEMBER_COUNT

  datatype Start = Started | Exhausted | Refused

  datatype Address = Free | Taken | Unknown

  /** No running server sits on the stable address of another member. */
  ghost predicate AddressesFree(w: World, stableIP: seq<nat>)
    requires |stableIP| == 4
  {
    forall i | 1 <= i <= 3 :: Up(w, i) ==> !Collides(stableIP, i, w.members[i].envelope.address)
  }

  /** The first other member whose stable address equals this runtime address, if any. */
  method FindCollision(stableIP: seq<nat>, i: Id, address: nat) returns (collides: bool)
    requires |stableIP| == 4
    ensures collides <==> Collides(stableIP, i, address)
  {
    for j := 1 to 4
      invariant forall k | 1 <= k < j :: k != i ==> stableIP[k] != address
    {
      if j != i && stableIP[j] == address {
        return true;
      }
    }
    return false;
  }

  /** Refuse when an inspected running server already overlaps another member's address. */
  method ValidateReservations(stableIP: seq<nat>, records: seq<Envelope>) returns (ok: bool)
    requires |stableIP| == 4 && |records| == 4
    ensures ok <==> forall i | 1 <= i <= 3 :: records[i].Running? ==> !Collides(stableIP, i, records[i].address)
  {
    for i := 1 to 4
      invariant forall k | 1 <= k < i :: records[k].Running? ==> !Collides(stableIP, k, records[k].address)
    {
      if records[i].Running? {
        var collides := FindCollision(stableIP, i, records[i].address);
        if collides {
          return false;
        }
      }
    }
    return true;
  }

  method ValidatePeerReservations(h: Host, target: Id) returns (ok: bool)
    requires h.Valid()
    modifies h`w
    ensures h.Valid() && h.OnlyWatched()
    ensures ok ==> h.up
    ensures ok ==> PeersFree(h.w, h.stableIP, target)
    ensures h.reliable && AddressesFree(h.w, h.stableIP) ==> ok
  {
    WatchedNothing(h.w, h.stable);
    var records: seq<Envelope> := [Missing, Missing, Missing, Missing];
    for j := 1 to 4
      invariant h.Valid() && h.OnlyWatched() && |records| == 4
      invariant j > 1 ==> h.up || (j == 2 && target == 1)
      invariant forall k | 1 <= k < j && k != target :: AddressKept(records[k], h.w.members[k].envelope)
      invariant h.reliable ==> forall k | 1 <= k <= 3 :: records[k] == Missing || records[k] == h.w.members[k].envelope
    {
      if j != target {
        ghost var before := h.w;
        var found, e := h.Inspect(j);
        WatchedTrans(old(h.w), before, h.w, h.stable);
        if !found {
          return false;
        }
        forall k | 1 <= k < j && k != target ensures AddressKept(records[k], h.w.members[k].envelope) {
          assert AddressKept(records[k], before.members[k].envelope);
          assert Undisturbed(before, h.w, k, h.stable);
        }
        records := records[j := e];
      }
    }
    ok := ValidateReservations(h.stableIP, records);
    assert forall k | 1 <= k <= 3 && k != target :: AddressKept(records[k], h.w.members[k].envelope);
  }

  /** A server running now was running when it was inspected, at the same address. */
  predicate AddressKept(seen: Envelope, now: Envelope) {
    now.Running? ==> seen.Running? && seen.address == now.address
  }

  /** Poll a new envelope until it reports an address, or stops and leaves a collision in its log. */
  method WaitAddress(h: Host, i: Id) returns (r: Address)
    requires h.Valid()
    modifies h`w
    ensures h.Valid() && h.OnlyWatched()
    ensures r.Free? ==> h.up && Up(h.w, i) && !Collides(h.stableIP, i, h.w.members[i].envelope.address)
    ensures h.reliable && Up(h.w, i) && !Collides(h.stableIP, i, h.w.members[i].envelope.address) ==> r.Free?
  {
    WatchedNothing(h.w, h.stable);
    var polls: int := *;
    if h.reliable && polls < 1 {
      polls := 1;
    }
    while polls > 0
      invariant h.Valid() && h.OnlyWatched()
      invariant h.reliable && Up(h.w, i) && !Collides(h.stableIP, i, h.w.members[i].envelope.address) ==> polls > 0
    {
      ghost var before := h.w;
      var ok, e := h.Inspect(i);
      WatchedTrans(old(h.w), before, h.w, h.stable);
      if !ok {
        return Unknown;
      }
      var attached: bool, logged: bool := *, *;
      if e.Running? && (attached || h.reliable) {
        var collides := FindCollision(h.stableIP, i, e.address);
        return if collides then Taken else Free;
      }
      if e.Stopped? {
        return if logged then Taken else Unknown;
      }
      polls := polls - 1;
    }
    return Unknown;
  }

  /** Since then envelope i was stopped or deleted, and deleted only while it was not running. */
  ghost predicate OnlyDownDeleted(was: seq<Entry>, log: seq<Entry>, i: Id) {
    && was <= log
    && (forall k | |was| <= k < |log| ::
          log[k].cmd == StopServer(i) || (log[k].cmd == DeleteServer(i) && !Up(log[k].before, i)))
  }

  /** Stop the envelope; a stop that reports an error still counts when inspection shows it stopped. */
  method StopExact(h: Host, i: Id) returns (ok: bool)
    requires h.Valid()
    modifies h`w, h`up, h`log
    ensures h.Valid() && h.RetiredOn(i) && (ok ==> h.up)
    ensures EnvelopeDrift(old(h.w).members[i].envelope, h.w.members[i].envelope, false)
    ensures ok ==> !Up(h.w, i)
    ensures OnlyDownDeleted(old(h.log), h.log, i)
    ensures h.reliable && Up(old(h.w), i) ==> ok && h.w == SetEnvelope(old(h.w), i, Stopped)
  {
    ok := h.Stop(i);
    if !ok {
      ghost var w1 := h.w;
      var found, e := h.Inspect(i);
      ChainWatched(old(h.w), old(h.log), w1, h.log, h.w, {i}, {}, h.stable);
      LinealTrans(old(h.w), w1, h.w);
      assert Undisturbed(w1, h.w, i, h.stable);
      ok := found && e.Stopped?;
    }
  }

  method DeleteIfStopped(h: Host, i: Id) returns (ok: bool)
    requires h.Valid()
    modifies h`w, h`up, h`log
    ensures h.Valid() && h.RetiredOn(i) && (ok ==> h.up)
    ensures ok ==> h.w.members[i].envelope.Missing?
    ensures OnlyDownDeleted(old(h.log), h.log, i)
    ensures h.stable && Up(old(h.w), i) ==> Up(h.w, i)
    ensures h.w.members[i].envelope.Missing? || EnvelopeDrift(old(h.w).members[i].envelope, h.w.members[i].envelope, h.stable)
    ensures h.reliable && old(h.w).members[i].envelope.Stopped? ==> ok && h.w == SetEnvelope(old(h.w), i, Missing)
  {
    NothingIsConfined(h.log, h.w, {i}, {}, h.stable);
    var found, e := h.Inspect(i);
    ChainWatched(old(h.w), old(h.log), old(h.w), h.log, h.w, {i}, {}, h.stable);
    assert Undisturbed(old(h.w), h.w, i, h.stable);
    if !found || !e.Stopped? {
      return false;
    }

    ghost var w1 := h.w;
    ok := h.Delete(i);
    Chain(old(h.w), old(h.log), w1, old(h.log), h.w, h.log, {i}, {}, h.stable);
    LinealTrans(old(h.w), w1, h.w);
  }

  /** Remove exactly this envelope: stop it when it runs, and delete it only once it is stopped. */
  method DeleteExact(h: Host, i: Id) returns (ok: bool)
    requires h.Valid()
    modifies h`w, h`up, h`log
    ensures h.Valid() && h.RetiredOn(i) && (ok ==> h.up)
    ensures ok ==> h.w.members[i].envelope.Missing?
    ensures OnlyDownDeleted(old(h.log), h.log, i)
    ensures h.reliable ==> ok && h.w == SetEnvelope(old(h.w), i, Missing)
  {
    hide Evolved, Lineal, Confined, Guard, EnvelopeDrift;
    NothingIsConfined(h.log, h.w, {i}, {}, h.stable);
    var found, e := h.Inspect(i);
    WatchedKeeps(old(h.w), h.w, h.log, h.call, h.stable);
    ChainWatched(old(h.w), old(h.log), old(h.w), h.log, h.w, {i}, {}, h.stable);
    if !found || e.Missing? {
      assert h.w.members[i := h.w.members[i]] == h.w.members;
      return found;
    }

    ghost var w1, l1 := h.w, h.log;
    if e.Running? {
      ok := StopExact(h, i);
      Chain(old(h.w), old(h.log), w1, l1, h.w, h.log, {i}, {}, h.stable);
      LinealTrans(old(h.w), w1, h.w);
      if !ok {
        return;
      }
    }

    ghost var w2, l2 := h.w, h.log;
    ok := DeleteIfStopped(h, i);
    Chain(old(h.w), old(h.log), w2, l2, h.w, h.log, {i}, {}, h.stable);
    LinealTrans(old(h.w), w2, h.w);
  }

  datatype Attempt = Attached | Again | Abandoned

  /** One run and its address check; a collision ends with this envelope removed. */
  method TryRun(h: Host, i: Id) returns (r: Attempt)
    requires h.Valid()
    modifies h`w, h`up, h`log
    ensures h.Valid() && h.StartedOn(i)
    ensures Runs(h.log) <= Runs(old(h.log)) + 1
    ensures r.Attached? ==> h.up && Up(h.w, i) && !Collides(h.stableIP, i, h.w.members[i].envelope.address)
    ensures r.Again? ==> h.up && h.w.members[i].envelope.Missing?
    ensures h.reliable && Possible(old(h.w), RunServer(i)) ==> r.Attached? && h.w == Intended(old(h.w), h.stableIP, RunServer(i))
  {
    var report := h.Run(i);
    if report.Rejected? {
      return Abandoned;
    }

    ghost var w1, l1 := h.w, h.log;
    if report.Done? {
      var address := WaitAddress(h, i);
      ChainWatched(old(h.w), old(h.log), w1, l1, h.w, {i}, {}, h.stable);
      if address.Free? {
        return Attached;
      }
      if address.Unknown? {
        return Abandoned;
      }
    }

    ghost var w2 := h.w;
    var removed := DeleteExact(h, i);
    Chain(old(h.w), old(h.log), w2, l1, h.w, h.log, {i}, {}, h.stable);
    return if removed then Again else Abandoned;
  }

  /**
  Start one server, undoing and retrying a start whose runtime address belongs to another
  member. At most three runs; after three collisions the envelope is gone again.
   */
  method RunEnvelope(h: Host, i: Id) returns (r: Start)
    requires h.Valid()
    modifies h`w, h`up, h`log
    ensures h.Valid() && h.StartedOn(i)
    ensures Runs(h.log) <= Runs(old(h.log)) + ADDRESS_ATTEMPTS
    ensures r.Started? ==> h.up && Up(h.w, i)
    ensures r.Exhausted? ==> h.w.members[i].envelope.Missing?
    ensures !r.Refused? ==> AddressesFree(h.w, h.stableIP)
    ensures h.reliable && Possible(old(h.w), RunServer(i)) && AddressesFree(old(h.w), h.stableIP)
            ==> r.Started? && h.w == Intended(old(h.w), h.stableIP, RunServer(i))
  {
    hide Evolved, Lineal, Confined, Guard, MayStart, Coherent, AddressesFree, PeersFree, LineagesKept, KeptWhole;
    NothingIsConfined(h.log, h.w, {i}, {}, h.stable);
    LinealKeepsLineages(h.w, h.w);
    for attempt := 1 to ADDRESS_ATTEMPTS + 1
      invariant h.Valid() && h.StartedOn(i)
      invariant Runs(h.log) <= Runs(old(h.log)) + attempt - 1
      invariant attempt > 1 ==> h.w.members[i].envelope.Missing? && PeersFree(h.w, h.stableIP, i)
      invariant h.reliable && Possible(old(h.w), RunServer(i)) && AddressesFree(old(h.w), h.stableIP)
                ==> attempt == 1 && h.w == old(h.w)
    {
      if !h.up {
        return Refused;
      }
      ghost var w1 := h.w;
      var clear := ValidatePeerReservations(h, i);
      WatchedKeeps(w1, h.w, h.log, h.call, h.stable);
      ChainWatched(old(h.w), old(h.log), w1, h.log, h.w, {i}, {}, h.stable);
      LinealKeepsLineages(w1, h.w);
      LineagesKeptTrans(old(h.w), w1, h.w, 0);
      if !clear {
        return Refused;
      }
      ghost var w2, l2 := h.w, h.log;
      var tried := TryRun(h, i);
      Chain(old(h.w), old(h.log), w2, l2, h.w, h.log, {i}, {}, h.stable);
      PeersStayFree(w2, h.w, h.stableIP, i, h.stable);
      LineagesKeptTrans(old(h.w), w2, h.w, 0);
      if tried.Attached? {
        PeersMakeFree(h.w, h.stableIP, i);
        return Started;
      }
      if tried.Abandoned? {
        return Refused;
      }
    }
    PeersMakeFree(h.w, h.stableIP, i);
    return Exhausted;
  }

  /** No running member other than the target sits on another member's address. */
  ghost predicate PeersFree(w: World, stableIP: seq<nat>, target: Id)
    requires |stableIP| == 4
  {
    forall j | 1 <= j <= 3 :: j != target && Up(w, j) ==> !Collides(stableIP, j, w.members[j].envelope.address)
  }

  lemma PeersStayFree(w: World, after: World, stableIP: seq<nat>, i: Id, stable: bool)
    requires |stableIP| == 4 && PeersFree(w, stableIP, i) && Evolved(w, after, {i}, {}, stable)
    ensures PeersFree(after, stableIP, i)
  {
    forall j | 1 <= j <= 3 && j != i && Up(after, j) ensures !Collides(stableIP, j, after.members[j].envelope.address) {
      assert Undisturbed(w, after, j, stable);
    }
  }

  lemma PeersMakeFree(w: World, stableIP: seq<nat>, i: Id)
    requires |stableIP| == 4 && PeersFree(w, stableIP, i)
    requires Up(w, i) ==> !Collides(stableIP, i, w.members[i].envelope.address)
    ensures AddressesFree(w, stableIP)
  {
  }

  /** Replace an envelope that is not running, as it was last inspected, by a freshly started one. */
  method Recreate(h: Host, i: Id, seen: Envelope) returns (ok: bool)
    requires h.Valid() && !seen.Running?
    modifies h`w, h`up, h`log
    ensures h.Valid() && h.StartedOn(i) && (ok ==> h.up && Up(h.w, i))
    ensures Runs(h.log) <= Runs(old(h.log)) + ADDRESS_ATTEMPTS
    ensures ok ==> AddressesFree(h.w, h.stableIP)
    ensures h.reliable && old(h.w).network && !old(h.w).members[i].data.Absent? && AddressesFree(old(h.w), h.stableIP)
            && seen == old(h.w).members[i].envelope
            ==> ok && h.w == LaunchedWorld(old(h.w), h.stableIP, i)
  {
    NothingIsConfined(h.log, h.w, {i}, {}, h.stable);
    StartedFromMissing(h.w, h.stableIP, i);
    FreeWithout(h.w, h.stableIP, i);
    if seen.Stopped? {
      ok := h.Delete(i);
      if !ok {
        return;
      }
    }

    ghost var w2, l2 := h.w, h.log;
    var start := RunEnvelope(h, i);
    Chain(old(h.w), old(h.log), w2, l2, h.w, h.log, {i}, {}, h.stable);
    ok := start.Started?;
  }

  /** A running member counts as started; a stopped one is replaced by a fresh envelope. */
  method StartForRecovery(h: Host, i: Id) returns (ok: bool)
    requires h.Valid()
    modifies h`w, h`up, h`log
    ensures h.Valid() && h.StartedOn(i) && (ok ==> h.up && Up(h.w, i))
    ensures h.stable && Up(old(h.w), i) ==> Up(h.w, i) && h.log == old(h.log)
    ensures Runs(h.log) <= Runs(old(h.log)) + ADDRESS_ATTEMPTS
    ensures !old(h.up) ==> !ok && h.log == old(h.log) && Watched(old(h.w), h.w, h.stable)
    ensures h.reliable && old(h.w).network && !old(h.w).members[i].data.Absent? && AddressesFree(old(h.w), h.stableIP)
            ==> ok && h.w == LaunchedWorld(old(h.w), h.stableIP, i)
  {
    NothingIsConfined(h.log, h.w, {i}, {}, h.stable);
    var found, e := h.Inspect(i);
    ChainWatched(old(h.w), old(h.log), old(h.w), h.log, h.w, {i}, {}, h.stable);
    assert Undisturbed(old(h.w), h.w, i, h.stable);
    if !found || e.Running? {
      return found;
    }

    ghost var w1, l1 := h.w, h.log;
    ok := Recreate(h, i, e);
    Chain(old(h.w), old(h.log), w1, l1, h.w, h.log, {i}, {}, h.stable);
  }

  /** What a start that meets no trouble leaves behind: the server runs, but is not ready yet. */
  function LaunchedWorld(w: World, stableIP: seq<nat>, i: Id): (r: World)
    requires |stableIP| == 4 && w.network && !w.members[i].data.Absent?
  {
    if Up(w, i) then w else Intended(SetEnvelope(w, i, Missing), stableIP, RunServer(i))
  }

  /** The same after waiting. */
  function StartedWorld(w: World, stableIP: seq<nat>, i: Id): (r: World)
    requires |stableIP| == 4 && w.network && !w.members[i].data.Absent?
  {
    Rested(LaunchedWorld(w, stableIP, i))
  }

  lemma StartedFromMissing(w: World, stableIP: seq<nat>, i: Id)
    requires |stableIP| == 4
    ensures w.members[i].envelope.Missing? ==> SetEnvelope(w, i, Missing) == w
  {
    assert w.members[i := w.members[i]] == w.members;
  }

  lemma FreeWithout(w: World, stableIP: seq<nat>, i: Id)
    requires |stableIP| == 4
    ensures AddressesFree(w, stableIP) ==> AddressesFree(SetEnvelope(w, i, Missing), stableIP)
  {
    var after := SetEnvelope(w, i, Missing);
    assert forall j | 1 <= j <= 3 :: Up(after, j) ==> after.members[j] == w.members[j];
  }

  /** Recovery deletes an envelope only when it is stopped; a missing one needs no work. */
  method DeleteStopped(h: Host, i: Id) returns (ok: bool)
    requires h.Valid()
    modifies h`w, h`up, h`log
    ensures h.Valid() && h.RetiredOn(i) && (ok ==> h.up)
    ensures ok ==> h.w.members[i].envelope.Missing?
    ensures OnlyDownDeleted(old(h.log), h.log, i)
    ensures h.reliable && Up(old(h.w), i) ==> !ok && h.w == old(h.w) && h.log == old(h.log)
    ensures h.reliable && !Up(old(h.w), i) ==> ok && h.w == SetEnvelope(old(h.w), i, Missing)
  {
    NothingIsConfined(h.log, h.w, {i}, {}, h.stable);
    StartedFromMissing(h.w, h.stableIP, i);
    var found, e := h.Inspect(i);
    ChainWatched(old(h.w), old(h.log), old(h.w), h.log, h.w, {i}, {}, h.stable);
    if !found || e.Missing? {
      return found;
    }
    if !e.Stopped? {
      return false;
    }

    ghost var w1 := h.w;
    ok := h.Delete(i);
    Chain(old(h.w), old(h.log), w1, old(h.log), h.w, h.log, {i}, {}, h.stable);
    LinealTrans(old(h.w), w1, h.w);
  }
}
