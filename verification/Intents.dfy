/**
Durable operator intent: whether the cluster should run, and which one member should stay down.
Intent is loaded, changed, validated and written back while the operation lock is held.
 */
module Intents {
  import opened Options
  import opened Journals
  import opened Worlds
  import opened Hosts

  const DEFAULT_INTENT := Desired(true, [])

  /** The intents the loader accepts and the saver writes: at most one stopped member. */
  predicate ValidDesired(d: Desired) {
    |d.stopped| <= 1 && Increasing(d.stopped)
  }

  predicate ReadableIntent(f: Files) {
    f.desired.Some? ==> ValidDesired(f.desired.value)
  }

  function IntentOf(f: Files): (r: Desired) {
    if f.desired.None? then DEFAULT_INTENT else f.desired.value
  }

  function WithMember(d: Desired, id: Id, stopped: bool): (r: Desired) {
    d.(stopped := Without(d.stopped, id) + (if stopped then [id] else []))
  }

  function Without(ids: seq<int>, id: int): (r: seq<int>) {
    if ids == [] then [] else (if ids[0] == id then [] else [ids[0]]) + Without(ids[1..], id)
  }

  lemma {:induction false} WithoutSnoc(ids: seq<int>, x: int, id: int)
    ensures Without(ids + [x], id) == Without(ids, id) + (if x == id then [] else [x])
  {
    if ids != [] {
      WithoutSnoc(ids[1..], x, id);
      assert (ids + [x])[1..] == ids[1..] + [x];
    }
  }

  /**
  Setting one member's intent touches nobody else's: a cleared member is not stopped any more,
  and a member can be marked only while no other one is.
   */
  lemma MemberIntentIsLocal(d: Desired, id: Id, stopped: bool)
    requires ValidDesired(d)
    ensures var e := WithMember(d, id, stopped);
            && e.running == d.running
            && (id in e.stopped <==> stopped)
            && (forall other: int :: other != id ==> (other in e.stopped <==> other in d.stopped))
            && (ValidDesired(e) <==> !stopped || d.stopped == [] || d.stopped == [id])
  {
    if d.stopped != [] {
      assert d.stopped == [d.stopped[0]];
      assert Without(d.stopped, id) == if d.stopped[0] == id then [] else d.stopped by {
        assert d.stopped[1..] == [];
        assert Without(d.stopped[1..], id) == [];
      }
    }
    var e := WithMember(d, id, stopped);
    if stopped && d.stopped != [] && d.stopped != [id] {
      assert |e.stopped| == 2;
    }
  }

  method LoadDesired(h: Host) returns (ok: bool, d: Desired)
    ensures ok <==> h.up && ReadableIntent(h.w.files)
    ensures ok ==> d == IntentOf(h.w.files) && ValidDesired(d)
  {
    d := DEFAULT_INTENT;
    if !h.up {
      return false, d;
    }
    if h.w.files.desired.None? {
      return true, d;
    }
    d := h.w.files.desired.value;
    ok := ValidateDesired(d);
  }

  method ValidateDesired(d: Desired) returns (ok: bool)
    ensures ok <==> ValidDesired(d)
  {
    if |d.stopped| > 1 {
      return false;
    }
    var previous := 0;
    for k := 0 to |d.stopped|
      invariant Increasing(d.stopped[..k])
      invariant previous == if k == 0 then 0 else d.stopped[k - 1]
    {
      if d.stopped[k] < 1 || d.stopped[k] > MEMBER_COUNT || d.stopped[k] <= previous {
        return false;
      }
      previous := d.stopped[k];
    }
    assert d.stopped[..|d.stopped|] == d.stopped;
    return true;
  }

  /** Only a valid intent is written; a write that reports an error may still have happened. */
  method SaveDesired(h: Host, d: Desired) returns (ok: bool)
    requires h.Valid()
    modifies h`w, h`up, h`call
    ensures h.Valid() && (h.up ==> old(h.up)) && (ok ==> h.up) && h.call == old(h.call)
    ensures h.w == old(h.w) || (ValidDesired(d) && h.w == WithIntent(old(h.w), d))
    ensures ok ==> ValidDesired(d) && h.w == WithIntent(old(h.w), d)
    ensures h.reliable && ValidDesired(d) ==> ok
  {
    ok := ValidateDesired(d);
    if ok {
      ok := h.Write(PutDesired(d));
    }
  }

  function WithIntent(w: World, d: Desired): (r: World) {
    w.(files := w.files.(desired := Some(d)))
  }

  /** The world after an intent write that may or may not have reached the disk. */
  predicate IntentWrite(w: World, after: World, d: Desired) {
    after == w || (ReadableIntent(w.files) && ValidDesired(d) && after == WithIntent(w, d))
  }

  method RemoveId(ids: seq<int>, id: int) returns (kept: seq<int>)
    ensures kept == Without(ids, id)
  {
    kept := [];
    for k := 0 to |ids|
      invariant kept == Without(ids[..k], id)
    {
      WithoutSnoc(ids[..k], ids[k], id);
      assert ids[..k + 1] == ids[..k] + [ids[k]];
      if ids[k] != id {
        kept := kept + [ids[k]];
      }
    }
    assert ids[..|ids|] == ids;
  }

  method SetMemberIntent(h: Host, id: Id, stopped: bool) returns (ok: bool)
    requires h.Valid()
    modifies h`w, h`up, h`call
    ensures h.Valid() && (h.up ==> old(h.up)) && (ok ==> h.up) && h.call == old(h.call)
    ensures IntentWrite(old(h.w), h.w, WithMember(IntentOf(old(h.w).files), id, stopped))
    ensures ok ==> ReadableIntent(old(h.w).files) && h.w.files.desired == Some(WithMember(IntentOf(old(h.w).files), id, stopped))
    ensures ok ==> ReadableIntent(h.w.files)
    ensures h.reliable && ReadableIntent(old(h.w).files) && (!stopped || IntentOf(old(h.w).files).stopped in [[], [id]]) ==> ok
  {
    var d;
    ok, d := LoadDesired(h);
    if !ok {
      return;
    }
    MemberIntentIsLocal(d, id, stopped);
    var members := RemoveId(d.stopped, id);
    if stopped {
      members := members + [id];
    }
    assert d.(stopped := members) == WithMember(d, id, stopped);
    ok := SaveDesired(h, d.(stopped := members));
  }

  method MarkClusterStopped(h: Host) returns (ok: bool)
    requires h.Valid()
    modifies h`w, h`up, h`call
    ensures h.Valid() && (h.up ==> old(h.up)) && (ok ==> h.up) && h.call == old(h.call)
    ensures IntentWrite(old(h.w), h.w, IntentOf(old(h.w).files).(running := false))
    ensures ok ==> ReadableIntent(h.w.files) && h.w == WithIntent(old(h.w), IntentOf(old(h.w).files).(running := false))
    ensures h.reliable && ReadableIntent(old(h.w).files) ==> ok
  {
    var d;
    ok, d := LoadDesired(h);
    if ok {
      ok := SaveDesired(h, d.(running := false));
    }
  }

  method MarkClusterRunning(h: Host) returns (ok: bool)
    requires h.Valid()
    modifies h`w, h`up, h`call
    ensures h.Valid() && (h.up ==> old(h.up)) && (ok ==> h.up) && h.call == old(h.call)
    ensures IntentWrite(old(h.w), h.w, DEFAULT_INTENT)
    ensures ok ==> ReadableIntent(h.w.files) && h.w == WithIntent(old(h.w), DEFAULT_INTENT)
    ensures h.reliable && ReadableIntent(old(h.w).files) ==> ok
  {
    var d;
    ok, d := LoadDesired(h);
    if ok {
      ok := SaveDesired(h, d.(running := true, stopped := []));
    }
  }
}
