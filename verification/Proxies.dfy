/**
The API proxy's backend pool: health and identity verdicts are replaced from outside, failed
dials mark a backend unhealthy, and every client is offered the eligible backends in rotation.
 */
module Proxies {
  import opened Options
  import opened Numbers

  datatype Backend = Backend(id: int, address: nat)

  predicate Distinct(backends: seq<Backend>) {
    forall j, k | 0 <= j < k < |backends| :: backends[j].id != backends[k].id
  }

  predicate Says(verdicts: map<int, bool>, id: int) {
    id in verdicts && verdicts[id]
  }

  function Eligible(backends: seq<Backend>, healthy: map<int, bool>, trusted: map<int, bool>): (r: seq<Backend>) {
    if backends == [] then []
    else
      var b := backends[|backends| - 1];
      Eligible(backends[..|backends| - 1], healthy, trusted) + (if Says(healthy, b.id) && Says(trusted, b.id) then [b] else [])
  }

  lemma {:induction false} EligibleMember(backends: seq<Backend>, healthy: map<int, bool>, trusted: map<int, bool>, b: Backend)
    ensures b in Eligible(backends, healthy, trusted) <==> b in backends && Says(healthy, b.id) && Says(trusted, b.id)
  {
    if backends != [] {
      var rest, last := backends[..|backends| - 1], backends[|backends| - 1];
      EligibleMember(rest, healthy, trusted, b);
      assert backends == rest + [last];
      assert b in backends <==> b in rest || b == last;
    }
  }

  lemma {:induction false} EligibleAreDistinct(backends: seq<Backend>, healthy: map<int, bool>, trusted: map<int, bool>)
    requires Distinct(backends)
    ensures Distinct(Eligible(backends, healthy, trusted))
  {
    if backends != [] {
      var rest := backends[..|backends| - 1];
      EligibleAreDistinct(rest, healthy, trusted);
      var e := Eligible(rest, healthy, trusted);
      forall k | 0 <= k < |e| ensures e[k].id != backends[|backends| - 1].id {
        EligibleMember(rest, healthy, trusted, e[k]);
      }
    }
  }

  /** Exactly the healthy and trusted backends are eligible. */
  lemma EligibleIsExact(backends: seq<Backend>, healthy: map<int, bool>, trusted: map<int, bool>)
    ensures forall b :: b in Eligible(backends, healthy, trusted) <==> b in backends && Says(healthy, b.id) && Says(trusted, b.id)
    ensures Distinct(backends) ==> Distinct(Eligible(backends, healthy, trusted))
  {
    forall b ensures b in Eligible(backends, healthy, trusted) <==> b in backends && Says(healthy, b.id) && Says(trusted, b.id) {
      EligibleMember(backends, healthy, trusted, b);
    }
    if Distinct(backends) {
      EligibleAreDistinct(backends, healthy, trusted);
    }
  }

  lemma {:induction false} NobodyBeforeProbes(backends: seq<Backend>, trusted: map<int, bool>)
    ensures Eligible(backends, map[], trusted) == []
  {
    if backends != [] {
      NobodyBeforeProbes(backends[..|backends| - 1], trusted);
    }
  }

  function Rotated(s: seq<Backend>, start: nat): (r: seq<Backend>)
    requires start <= |s|
  {
    s[start..] + s[..start]
  }

  /** Where the next client starts among `n` backends. */
  function Start(next: nat, n: nat): (r: nat)
    requires n > 0
    ensures r < n
  {
    next % n
  }

  /** A rotation offers each backend once more, and nothing else. */
  lemma RotationIsPermutation(s: seq<Backend>, start: nat)
    requires start <= |s|
    ensures multiset(Rotated(s, start)) == multiset(s)
    ensures Distinct(s) ==> Distinct(Rotated(s, start))
    ensures start < |s| ==> Rotated(s, start)[0] == s[start]
  {
    assert s == s[..start] + s[start..];
  }

  class ProxyPool {
    const backends: seq<Backend>
    var healthy: map<int, bool>
    var trusted: map<int, bool>
    var next: nat

    ghost function Open(): (r: seq<Backend>)
      reads this
    {
      Eligible(backends, healthy, trusted)
    }

    /** Every backend starts trusted, and none is healthy before its first probe. */
    constructor (backends: seq<Backend>)
      ensures this.backends == backends && healthy == map[] && next == 0
      ensures forall id :: Says(trusted, id) <==> exists b | b in backends :: b.id == id
      ensures Open() == []
    {
      this.backends := backends;
      healthy := map[];
      next := 0;
      trusted := map b | b in backends :: b.id := true;
      new;
      NobodyBeforeProbes(backends, trusted);
    }

    method ReplaceHealth(health: map<int, bool>)
      modifies this`healthy
      ensures healthy == health
    {
      healthy := health;
    }

    method ReplaceIdentity(identity: map<int, bool>)
      modifies this`trusted
      ensures trusted == identity
    {
      trusted := identity;
    }

    method MarkUnhealthy(id: int)
      modifies this`healthy
      ensures healthy == old(healthy)[id := false]
    {
      healthy := healthy[id := false];
    }

    method HealthyCount() returns (count: nat)
      ensures count == |Open()|
    {
      count := 0;
      for k := 0 to |backends|
        invariant count == |Eligible(backends[..k], healthy, trusted)|
      {
        assert backends[..k + 1][..k] == backends[..k];
        if Says(healthy, backends[k].id) && Says(trusted, backends[k].id) {
          count := count + 1;
        }
      }
      assert backends[..|backends|] == backends;
    }

    /** The backends to dial for one client: all eligible ones, starting one further each time. */
    method Candidates() returns (ordered: seq<Backend>)
      modifies this`next
      ensures Open() == [] ==> ordered == [] && next == old(next)
      ensures Open() != [] ==> ordered == Rotated(Open(), Start(old(next), |Open()|)) && next == Start(old(next) + 1, |Open()|)
      ensures multiset(ordered) == multiset(Open())
    {
      var eligible: seq<Backend> := [];
      for k := 0 to |backends|
        invariant eligible == Eligible(backends[..k], healthy, trusted)
      {
        assert backends[..k + 1][..k] == backends[..k];
        if Says(healthy, backends[k].id) && Says(trusted, backends[k].id) {
          eligible := eligible + [backends[k]];
        }
      }
      assert backends[..|backends|] == backends;
      if |eligible| == 0 {
        return [];
      }
      var start := next % |eligible|;
      next := (next + 1) % |eligible|;
      RotationIsPermutation(eligible, start);
      ordered := eligible[start..] + eligible[..start];
    }

    /** Dial the candidates in turn; a backend that cannot be reached is unhealthy until the next probe. */
    method HandleClient() returns (served: Option<Backend>)
      modifies this`next, this`healthy
      ensures trusted == old(trusted)
      ensures served.Some? ==> served.value in old(Open())
      ensures served.None? ==> forall b | b in old(Open()) :: !Says(healthy, b.id)
      ensures forall id | Says(healthy, id) :: Says(old(healthy), id)
    {
      ghost var open := Open();
      hide Eligible, Rotated;
      var candidates := Candidates();
      assert forall b :: b in candidates <==> b in multiset(candidates);
      assert forall b :: b in open <==> b in multiset(open);
      served := DialInTurn(candidates);
    }

    method DialInTurn(candidates: seq<Backend>) returns (served: Option<Backend>)
      modifies this`healthy
      ensures served.Some? ==> served.value in candidates
      ensures served.None? ==> forall b | b in candidates :: !Says(healthy, b.id)
      ensures forall id | Says(healthy, id) :: Says(old(healthy), id)
    {
      for k := 0 to |candidates|
        invariant forall j | 0 <= j < k :: !Says(healthy, candidates[j].id)
        invariant forall id | Says(healthy, id) :: Says(old(healthy), id)
      {
        var reached: bool := *;
        if reached {
          return Some(candidates[k]);
        }
        MarkUnhealthy(candidates[k].id);
      }
      served := None;
    }
  }

  // ---- fairness ------------------------------------------------------------------------------------------

  /** Positions from `from` up to, but not including, `to`, going round. */
  predicate OnArc(from: nat, to: nat, b: nat) {
    if from <= to then from <= b < to else from <= b || b < to
  }

  function Successor(p: nat, n: nat): (r: nat)
    requires p < n
  {
    if p + 1 == n then 0 else p + 1
  }

  lemma SmallRest(x: nat, n: nat)
    requires x < n
    ensures x % n == x
  {
  }

  lemma Scaled(n: int, d: int)
    requires n > 0
    ensures d >= 2 ==> n * d >= n + n
    ensures d <= -1 ==> n * d <= -n
  {
    assert n * (d - 2) == n * d - n - n && n * (d + 1) == n * d + n;
    assert d >= 2 ==> n * (d - 2) >= 0;
    assert d <= -1 ==> n * (d + 1) <= 0;
  }

  lemma Quotients(n: int, j: int, k: int, a: int, b: int)
    requires 0 <= a < n && 0 <= b < n && n * k + b == n * j + a + 1
    ensures b == if a + 1 == n then 0 else a + 1
  {
    var d := k - j;
    assert n * d == n * k - n * j;
    Scaled(n, d);
  }

  lemma NextStart(next: nat, n: nat)
    requires n > 0
    ensures Start(Start(next + 1, n), n) == Successor(Start(next, n), n)
  {
    Division(next, n);
    Division(next + 1, n);
    var a, b, j, k := next % n, (next + 1) % n, next / n, (next + 1) / n;
    SmallRest(b, n);
    Quotients(n, j, k, a, b);
  }

  /** How often each eligible backend has come first, after some full rounds and a part of the next. */
  ghost predicate Even(firsts: seq<Backend>, e: seq<Backend>, rounds: nat, from: nat, to: nat) {
    forall b | 0 <= b < |e| :: multiset(firsts)[e[b]] == rounds + if OnArc(from, to, b) then 1 else 0
  }

  lemma OneMoreFirst(firsts: seq<Backend>, e: seq<Backend>, rounds: nat, from: nat, to: nat)
    requires Distinct(e) && from < |e| && to < |e| && Even(firsts, e, rounds, from, to)
    ensures var more := firsts + [e[to]];
            if Successor(to, |e|) == from then Even(more, e, rounds + 1, from, from)
            else Even(more, e, rounds, from, Successor(to, |e|))
  {
    var more := firsts + [e[to]];
    forall b | 0 <= b < |e|
      ensures multiset(more)[e[b]] == multiset(firsts)[e[b]] + if b == to then 1 else 0
    {
      if b != to {
        assert e[b].id != e[to].id;
      }
    }
  }

  method ServeOne(pool: ProxyPool, firsts: seq<Backend>, ghost rounds: nat, ghost from: nat)
    returns (first: Backend, ghost more: nat)
    requires Distinct(pool.Open()) && from < |pool.Open()|
    requires Even(firsts, pool.Open(), rounds, from, Start(pool.next, |pool.Open()|))
    modifies pool`next
    ensures pool.Open() == old(pool.Open()) && first in pool.Open()
    ensures Even(firsts + [first], pool.Open(), more, from, Start(pool.next, |pool.Open()|))
  {
    hide Even, Eligible, Start, Distinct, Rotated, Successor;
    ghost var e := pool.Open();
    ghost var to := Start(pool.next, |e|);
    NextStart(pool.next, |e|);
    OneMoreFirst(firsts, e, rounds, from, to);
    RotationIsPermutation(e, to);
    var ordered := pool.Candidates();
    first := ordered[0];
    more := if Successor(to, |e|) == from then rounds + 1 else rounds;
  }

  /** Over any number of clients with a fixed eligible set, no backend comes first two times more often than another. */
  method ServeMany(pool: ProxyPool, clients: nat) returns (firsts: seq<Backend>)
    requires Distinct(pool.backends) && pool.Open() != []
    modifies pool`next
    ensures |firsts| == clients
    ensures forall a, b | a in pool.Open() && b in pool.Open() :: multiset(firsts)[a] <= multiset(firsts)[b] + 1
    ensures forall a | a in firsts :: a in pool.Open()
  {
    hide Eligible;
    ghost var e := pool.Open();
    EligibleIsExact(pool.backends, pool.healthy, pool.trusted);
    ghost var from := Start(pool.next, |e|);
    ghost var rounds: nat := 0;
    firsts := [];
    for k := 0 to clients
      invariant pool.Open() == e && |firsts| == k
      invariant Even(firsts, e, rounds, from, Start(pool.next, |e|))
      invariant forall a | a in firsts :: a in e
    {
      var first;
      first, rounds := ServeOne(pool, firsts, rounds, from);
      firsts := firsts + [first];
    }
    EvenIsFair(firsts, e, rounds, from, Start(pool.next, |e|));
  }

  lemma EvenIsFair(firsts: seq<Backend>, e: seq<Backend>, rounds: nat, from: nat, to: nat)
    requires Even(firsts, e, rounds, from, to)
    ensures forall a, b | a in e && b in e :: multiset(firsts)[a] <= multiset(firsts)[b] + 1
  {
    forall a, b | a in e && b in e ensures multiset(firsts)[a] <= multiset(firsts)[b] + 1 {
      var i :| 0 <= i < |e| && e[i] == a;
      var j :| 0 <= j < |e| && e[j] == b;
    }
  }

  /** Whatever health reports and failed dials come, an untrusted backend serves nobody until identities are replaced. */
  method UntrustedStaysOut(pool: ProxyPool, id: int) returns (served: seq<Backend>)
    requires !Says(pool.trusted, id)
    modifies pool`next, pool`healthy
    ensures pool.trusted == old(pool.trusted)
    ensures forall b | b in served :: b.id != id
  {
    served := [];
    var events: int := *;
    while events > 0
      invariant pool.trusted == old(pool.trusted)
      invariant forall b | b in served :: b.id != id
      decreases events
    {
      var choice: int, health: map<int, bool>, failed: int := *, *, *;
      if choice == 0 {
        pool.ReplaceHealth(health);
      } else if choice == 1 {
        pool.MarkUnhealthy(failed);
      } else {
        EligibleIsExact(pool.backends, pool.healthy, pool.trusted);
        var client := pool.HandleClient();
        if client.Some? {
          served := served + [client.value];
        }
      }
      events := events - 1;
    }
  }
}
