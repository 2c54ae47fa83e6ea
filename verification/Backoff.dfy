/**
The supervisor's memory between ticks: how long to wait before repairing a member again, how
long a member that was just started is left alone, and how often a failing proxy is restarted.
Times are nanoseconds on the supervisor's clock.
 */
module Backoff {
  import opened Numbers

  const SECOND := 1_000_000_000
  const REPAIR_INITIAL := 30 * SECOND
  const REPAIR_MAXIMUM := 300 * SECOND
  const DEFAULT_INTERVAL := 15 * SECOND
  const PROXY_INITIAL := 1 * SECOND

  datatype Repair = Repair(failures: nat, next: int)

  function Min(a: int, b: int): (r: int) {
    if a < b then a else b
  }

  /** The delay after the k-th failure in a row: doubling from 30 seconds, five minutes at most. */
  function RepairDelay(k: nat): (r: int)
    requires k > 0
  {
    Min(REPAIR_INITIAL * Power2(k - 1), REPAIR_MAXIMUM)
  }

  lemma {:induction false} DoublingIsMonotone(a: nat, j: nat, k: nat)
    requires j <= k
    ensures a * Power2(j) <= a * Power2(k)
  {
    if j < k {
      DoublingIsMonotone(a, j, k - 1);
      assert a * Power2(k) == a * Power2(k - 1) + a * Power2(k - 1);
      assert a * Power2(k - 1) >= 0 by {
        DoublingIsMonotone(a, 0, k - 1);
      }
    }
  }

  /** The loop that doubles, with the same guard against overshooting as the proxy's. */
  method DelayAfter(failures: nat) returns (delay: int)
    requires failures > 0
    ensures delay == RepairDelay(failures)
  {
    delay := REPAIR_INITIAL;
    var attempt := 1;
    while attempt < failures && delay < REPAIR_MAXIMUM
      invariant 1 <= attempt <= failures
      invariant delay == RepairDelay(attempt)
      decreases failures - attempt
    {
      if delay > REPAIR_MAXIMUM / 2 {
        delay := REPAIR_MAXIMUM;
      } else {
        delay := delay * 2;
      }
      attempt := attempt + 1;
    }
    DoublingIsMonotone(REPAIR_INITIAL, attempt - 1, failures - 1);
  }

  // ---- the history a supervisor's memory stands for --------------------------------------------------

  /** A repair began at `from` and was over at `at`; the other events are single moments. */
  datatype Event =
    | Tried(id: int, from: int, at: int, failed: bool)
    | Recovered(id: int)
    | Launched(id: int, at: int, grace: int)
    | Settled(id: int)

  /** How many of the latest repairs of this member failed in a row. */
  function Failures(history: seq<Event>, id: int): (r: nat) {
    if history == [] then 0
    else
      var e := history[|history| - 1];
      var before := history[..|history| - 1];
      if e.Tried? && e.id == id then (if e.failed then Failures(before, id) + 1 else 0)
      else if e == Recovered(id) then 0
      else Failures(before, id)
  }

  function LastTry(history: seq<Event>, id: int): (r: int) {
    if history == [] then 0
    else
      var e := history[|history| - 1];
      if e.Tried? && e.id == id then e.at else LastTry(history[..|history| - 1], id)
  }

  function Grace(g: int): (r: int) {
    if g <= 0 then DEFAULT_INTERVAL else g
  }

  /** Until when this member's start is still in progress, if it has been started since it last settled. */
  function Quiet(history: seq<Event>, id: int, now: int): (r: bool) {
    if history == [] then false
    else
      var e := history[|history| - 1];
      var before := history[..|history| - 1];
      if e.Settled? && e.id == id then false
      else if e.Launched? && e.id == id then now < e.at + Grace(e.grace) || Quiet(before, id, now)
      else Quiet(before, id, now)
  }

  lemma OneMore(history: seq<Event>, e: Event, id: int)
    ensures Failures(history + [e], id) ==
            if e.Tried? && e.id == id then (if e.failed then Failures(history, id) + 1 else 0)
            else if e == Recovered(id) then 0
            else Failures(history, id)
    ensures LastTry(history + [e], id) == if e.Tried? && e.id == id then e.at else LastTry(history, id)
    ensures forall now :: Quiet(history + [e], id, now) <==>
              !(e.Settled? && e.id == id) && ((e.Launched? && e.id == id && now < e.at + Grace(e.grace)) || Quiet(history, id, now))
  {
    assert (history + [e])[..|history|] == history;
  }

  /** The recorded repairs are the members whose latest repair failed, with the end of their delay. */
  ghost predicate RepairsMatch(repairs: map<int, Repair>, history: seq<Event>) {
    && (forall id :: id in repairs <==> Failures(history, id) > 0)
    && (forall id | id in repairs ::
          repairs[id] == Repair(Failures(history, id), LastTry(history, id) + RepairDelay(Failures(history, id))))
  }

  ghost predicate GraceMatches(startupUntil: map<int, int>, history: seq<Event>) {
    forall id, now :: Quiet(history, id, now) <==> id in startupUntil && now < startupUntil[id]
  }

  /** A member that recovered, or whose repair succeeded, is forgotten; a failure is counted. */
  lemma RepairRecorded(repairs: map<int, Repair>, history: seq<Event>, e: Event, failures: nat)
    requires RepairsMatch(repairs, history) && (e.Tried? || e.Recovered?)
    requires failures == (if e.id in repairs then repairs[e.id].failures else 0) + 1
    ensures RepairsMatch(if e.Tried? && e.failed then repairs[e.id := Repair(failures, e.at + RepairDelay(failures))] else repairs - {e.id},
                         history + [e])
  {
    forall other {
      OneMore(history, e, other);
    }
  }

  lemma RepairsIgnore(repairs: map<int, Repair>, history: seq<Event>, e: Event)
    requires RepairsMatch(repairs, history) && (e.Launched? || e.Settled?)
    ensures RepairsMatch(repairs, history + [e])
  {
    forall other {
      OneMore(history, e, other);
    }
  }

  lemma GraceRecorded(startupUntil: map<int, int>, after: map<int, int>, history: seq<Event>, e: Event)
    requires GraceMatches(startupUntil, history)
    requires match e
             case Launched(id, at, grace) =>
               after == if id in startupUntil && startupUntil[id] >= at + Grace(grace) then startupUntil
                        else startupUntil[id := at + Grace(grace)]
             case Settled(id) => after == startupUntil - {id}
             case _ => after == startupUntil
    ensures GraceMatches(after, history + [e])
  {
    forall other {
      OneMore(history, e, other);
    }
  }

  class SupervisorState {
    var repairs: map<int, Repair>
    var startupUntil: map<int, int>
    ghost var history: seq<Event>

    ghost predicate Valid()
      reads this
    {
      RepairsMatch(repairs, history) && GraceMatches(startupUntil, history)
    }

    constructor ()
      ensures Valid() && history == []
    {
      repairs := map[];
      startupUntil := map[];
      history := [];
    }

    /** A repair may be tried when none failed before it, or the delay since the last failure is over. */
    method RepairAllowed(id: int, now: int) returns (ok: bool)
      requires Valid()
      ensures ok <==> Failures(history, id) == 0 || now >= LastTry(history, id) + RepairDelay(Failures(history, id))
    {
      ok := id !in repairs || now >= repairs[id].next;
    }

    /** Also called without a repair, for members that turned out ready. */
    method RecordRepair(id: int, failed: bool, now: int, ghost attempted: bool, ghost from: int)
      requires Valid() && (failed ==> attempted)
      modifies this
      ensures Valid() && history == old(history) + [if attempted then Tried(id, from, now, failed) else Recovered(id)]
      ensures startupUntil == old(startupUntil)
    {
      ghost var event := if attempted then Tried(id, from, now, failed) else Recovered(id);
      var failures := (if id in repairs then repairs[id].failures else 0) + 1;
      RepairRecorded(repairs, history, event, failures);
      GraceRecorded(startupUntil, startupUntil, history, event);
      hide RepairsMatch, GraceMatches, RepairDelay;
      if !failed {
        repairs := repairs - {id};
      } else {
        var delay := DelayAfter(failures);
        repairs := repairs[id := Repair(failures, now + delay)];
      }
      history := history + [event];
    }

    method RecordStartup(id: int, grace: int, now: int)
      requires Valid()
      modifies this
      ensures Valid() && history == old(history) + [Launched(id, now, grace)]
      ensures repairs == old(repairs)
    {
      RepairsIgnore(repairs, history, Launched(id, now, grace));
      hide RepairsMatch, GraceMatches;
      var until := now + Grace(grace);
      if id !in startupUntil || until > startupUntil[id] {
        startupUntil := startupUntil[id := until];
      }
      GraceRecorded(old(startupUntil), startupUntil, history, Launched(id, now, grace));
      history := history + [Launched(id, now, grace)];
    }

    method StartupInProgress(id: int, now: int) returns (yes: bool)
      requires Valid()
      ensures yes <==> Quiet(history, id, now)
    {
      yes := id in startupUntil && now < startupUntil[id];
    }

    method ClearStartup(id: int)
      requires Valid()
      modifies this
      ensures Valid() && history == old(history) + [Settled(id)]
      ensures repairs == old(repairs)
    {
      RepairsIgnore(repairs, history, Settled(id));
      startupUntil := startupUntil - {id};
      GraceRecorded(old(startupUntil), startupUntil, history, Settled(id));
      hide RepairsMatch, GraceMatches;
      history := history + [Settled(id)];
    }
  }

  /** The gate of a repair: no start of this member is in progress, and the delay after its last failure is over. */
  predicate MayRepair(history: seq<Event>, id: int, now: int) {
    && !Quiet(history, id, now)
    && (Failures(history, id) == 0 || now >= LastTry(history, id) + RepairDelay(Failures(history, id)))
  }

  /** Every repair of this member began when the gate was open. */
  predicate Timely(history: seq<Event>, id: int) {
    if history == [] then true
    else
      var e := history[|history| - 1];
      var before := history[..|history| - 1];
      Timely(before, id) && (e.Tried? && e.id == id ==> MayRepair(before, id, e.from))
  }

  /** A repair recorded only when the gate was open keeps the whole history timely. */
  lemma TimelyMore(history: seq<Event>, e: Event, id: int)
    requires Timely(history, id) && (e.Tried? && e.id == id ==> MayRepair(history, id, e.from))
    ensures Timely(history + [e], id)
  {
    assert (history + [e])[..|history|] == history;
  }

  lemma {:induction false} TimelyAt(history: seq<Event>, id: int, k: nat)
    requires Timely(history, id) && k < |history|
    requires history[k].Tried? && history[k].id == id
    ensures MayRepair(history[..k], id, history[k].from)
  {
    var before := history[..|history| - 1];
    if k < |before| {
      TimelyAt(before, id, k);
      assert before[..k] == history[..k];
    }
  }

  /** Repairs of one member do not overlap: each is over before the next begins. */
  predicate Clocked(history: seq<Event>) {
    && (forall k | 0 <= k < |history| :: history[k].Tried? ==> history[k].from <= history[k].at)
    && (forall j, k | 0 <= j < k < |history| ::
          history[j].Tried? && history[k].Tried? && history[j].id == history[k].id ==> history[j].at <= history[k].from)
  }

  lemma {:induction false} LongerDelay(j: nat, k: nat)
    requires 0 < j <= k
    ensures RepairDelay(j) <= RepairDelay(k)
  {
    DoublingIsMonotone(REPAIR_INITIAL, j - 1, k - 1);
  }

  /** Between positions j and m of the history no repair of this member succeeded and it was not found ready. */
  predicate StillFailing(history: seq<Event>, id: int, j: nat, m: nat)
    requires m <= |history|
  {
    forall n | j < n < m :: history[n] != Recovered(id) && (history[n].Tried? && history[n].id == id ==> history[n].failed)
  }

  lemma {:induction false} FailuresAccumulate(history: seq<Event>, id: int, j: nat, m: nat)
    requires Clocked(history) && j < m <= |history| && StillFailing(history, id, j, m)
    requires history[j].Tried? && history[j].id == id && history[j].failed
    ensures Failures(history[..m], id) >= Failures(history[..j + 1], id) > 0
    ensures LastTry(history[..m], id) >= history[j].at
  {
    assert history[..m] == history[..m - 1] + [history[m - 1]];
    OneMore(history[..m - 1], history[m - 1], id);
    if j + 1 < m {
      FailuresAccumulate(history, id, j, m - 1);
    }
  }

  /**
  However long the history, a repair that follows a failed one of the same member begins no earlier
  than the delay that failure earned, counted from its end.
   */
  lemma {:induction false} RepairsAreSpaced(history: seq<Event>, id: int, j: nat, k: nat)
    requires Timely(history, id) && Clocked(history) && j < k < |history|
    requires history[j].Tried? && history[j].id == id && history[j].failed
    requires history[k].Tried? && history[k].id == id && StillFailing(history, id, j, k)
    ensures Failures(history[..j + 1], id) > 0
    ensures history[k].from >= history[j].at + RepairDelay(Failures(history[..j + 1], id))
  {
    TimelyAt(history, id, k);
    FailuresAccumulate(history, id, j, k);
    LongerDelay(Failures(history[..j + 1], id), Failures(history[..k], id));
  }

  lemma {:induction false} GraceLasts(history: seq<Event>, id: int, j: nat, m: nat, now: int)
    requires j < m <= |history| && history[j].Launched? && history[j].id == id
    requires now < history[j].at + Grace(history[j].grace)
    requires forall n | j < n < m :: history[n] != Settled(id)
    ensures Quiet(history[..m], id, now)
  {
    assert history[..m] == history[..m - 1] + [history[m - 1]];
    OneMore(history[..m - 1], history[m - 1], id);
    if j + 1 < m {
      GraceLasts(history, id, j, m - 1, now);
    }
  }

  /** A member that was started is not repaired within its grace, unless it settled in between. */
  lemma {:induction false} StartsAreLeftAlone(history: seq<Event>, id: int, j: nat, k: nat)
    requires Timely(history, id) && j < k < |history|
    requires history[j].Launched? && history[j].id == id
    requires history[k].Tried? && history[k].id == id
    requires forall n | j < n < k :: history[n] != Settled(id)
    ensures history[k].from >= history[j].at + Grace(history[j].grace)
  {
    TimelyAt(history, id, k);
    if history[k].from < history[j].at + Grace(history[j].grace) {
      GraceLasts(history, id, j, k, history[k].from);
    }
  }

  // ---- proxy restarts -------------------------------------------------------------------------------------

  lemma FirstProxyDelay(initial: int, maximum: int)
    ensures ProxyDelay(initial, maximum, 0) == FirstRetry(initial) == if initial <= 0 then PROXY_INITIAL else initial
  {
    assert Power2(0) == 1;
  }

  /** Doubling under a cap, also when half of the cap is rounded down. */
  lemma NextProxyDelay(initial: int, maximum: int, k: nat)
    ensures var most := if maximum < FirstRetry(initial) then FirstRetry(initial) else maximum;
            var now := ProxyDelay(initial, maximum, k);
            ProxyDelay(initial, maximum, k + 1) == if now >= most then now else if now > most / 2 then most else now * 2
  {
    var first := FirstRetry(initial);
    assert first * Power2(k + 1) == 2 * (first * Power2(k));
    DoublingIsMonotone(first, 0, k);
  }

  /** The wait before each of the first `rounds` restarts of a proxy that keeps failing. */
  method ProxyRetries(initial: int, maximum: int, rounds: nat) returns (waits: seq<int>)
    ensures |waits| == rounds
    ensures forall k | 0 <= k < rounds :: waits[k] == ProxyDelay(initial, maximum, k)
  {
    hide ProxyDelay, FirstRetry;
    FirstProxyDelay(initial, maximum);
    var retry := initial;
    if retry <= 0 {
      retry := PROXY_INITIAL;
    }
    var most := maximum;
    if most < retry {
      most := retry;
    }
    waits := [];
    for k := 0 to rounds
      invariant |waits| == k
      invariant retry == ProxyDelay(initial, maximum, k)
      invariant forall j | 0 <= j < k :: waits[j] == ProxyDelay(initial, maximum, j)
    {
      waits := waits + [retry];
      NextProxyDelay(initial, maximum, k);
      if retry < most {
        if retry > most / 2 {
          retry := most;
        } else {
          retry := retry * 2;
        }
      }
    }
  }

  function FirstRetry(initial: int): (r: nat) {
    if initial <= 0 then PROXY_INITIAL else initial
  }

  /** Doubling from the first wait, capped, whatever integer halving does to the cap. */
  function ProxyDelay(initial: int, maximum: int, k: nat): (r: int) {
    var first := FirstRetry(initial);
    Min(first * Power2(k), if maximum < first then first else maximum)
  }

  /** The waits never shrink and never exceed the cap. */
  lemma ProxyDelaysGrow(initial: int, maximum: int, j: nat, k: nat)
    requires j <= k
    ensures 0 < ProxyDelay(initial, maximum, j) <= ProxyDelay(initial, maximum, k)
    ensures ProxyDelay(initial, maximum, k) <= if maximum < FirstRetry(initial) then FirstRetry(initial) else maximum
  {
    DoublingIsMonotone(FirstRetry(initial), 0, j);
    DoublingIsMonotone(FirstRetry(initial), j, k);
  }
}
