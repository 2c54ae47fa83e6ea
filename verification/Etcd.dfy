/**
Embedded etcd membership as each member's own loopback endpoint reports it: parsing one member's
metrics, the full topology check, and the degraded check that two voters form a majority without
the member being repaired.
 */
module Etcd {
  import opened Options
  import opened Texts
  import opened Journals

  // ---- server IDs ---------------------------------------------------------------------------------

  predicate IsHexDigit(c: char) {
    '0' <= c <= '9' || 'a' <= c <= 'f'
  }

  function HexValue(c: char): (r: nat)
    requires IsHexDigit(c)
  {
    if c <= '9' then c as int - '0' as int else c as int - 'a' as int + 10
  }

  function HexDigit(n: nat): (c: char)
    requires n < 16
    ensures IsHexDigit(c) && HexValue(c) == n
  {
    if n < 10 then ('0' as int + n) as char else ('a' as int + n - 10) as char
  }

  predicate AllHex(s: string) {
    forall k | 0 <= k < |s| :: IsHexDigit(s[k])
  }

  /** The number a hexadecimal string denotes. */
  function Number(s: string): (r: nat)
    requires AllHex(s)
  {
    if s == "" then 0 else 16 * Number(s[..|s| - 1]) + HexValue(s[|s| - 1])
  }

  /** The shortest lower-case hexadecimal form. */
  function Format(n: nat): (s: string)
    requires n > 0
    ensures s != "" && AllHex(s)
  {
    (if n < 16 then "" else Format(n / 16)) + [HexDigit(n % 16)]
  }

  function Power16(k: nat): (r: nat) {
    if k == 0 then 1 else 16 * Power16(k - 1)
  }

  lemma {:induction false} FormatDenotes(n: nat)
    requires n > 0
    ensures Number(Format(n)) == n
  {
    var s := Format(n);
    assert s[|s| - 1] == HexDigit(n % 16);
    if n >= 16 {
      FormatDenotes(n / 16);
      assert s[..|s| - 1] == Format(n / 16);
    } else {
      assert s[..|s| - 1] == "";
    }
  }

  lemma {:induction false} NumberIsBounded(s: string)
    requires AllHex(s)
    ensures Number(s) < Power16(|s|)
  {
    if s != "" {
      NumberIsBounded(s[..|s| - 1]);
    }
  }

  lemma {:induction false} FormatIsShort(n: nat, k: nat)
    requires 0 < n < Power16(k)
    ensures |Format(n)| <= k
  {
    if n >= 16 {
      FormatIsShort(n / 16, k - 1);
    }
  }

  /** One spelling for each nonzero 64-bit server ID. */
  function Canonical(value: string): (r: Option<string>) {
    var s := Trim(Lowered(value));
    if s == "" || |s| > 16 || !AllHex(s) || Number(s) == 0 then None else Some(Format(Number(s)))
  }

  lemma {:induction false} LoweredHex(s: string)
    requires AllHex(s)
    ensures Lowered(s) == s
  {
    if s != "" {
      LoweredHex(s[1..]);
    }
  }

  lemma HexIsTrimmed(s: string)
    requires AllHex(s)
    ensures Trim(s) == s
  {
  }

  /** A canonical ID is its own canonical form and denotes the number that was written. */
  lemma CanonicalIsIdempotent(value: string)
    requires Canonical(value).Some?
    ensures Canonical(Canonical(value).value) == Canonical(value)
    ensures Number(Trim(Lowered(value))) == Number(Canonical(value).value)
  {
    var s := Trim(Lowered(value));
    var n := Number(s);
    var c := Format(n);
    FormatDenotes(n);
    NumberIsBounded(s);
    PowersGrow(|s|, 16);
    FormatIsShort(n, 16);
    LoweredHex(c);
    HexIsTrimmed(c);
  }

  lemma {:induction false} PowersGrow(j: nat, k: nat)
    requires j <= k
    ensures Power16(j) <= Power16(k)
  {
    if j < k {
      PowersGrow(j, k - 1);
    }
  }

  /** Two spellings are identified exactly when they denote the same number. */
  lemma CanonicalIdentifies(a: string, b: string)
    requires Canonical(a).Some? && Canonical(b).Some?
    ensures Canonical(a) == Canonical(b) <==> Number(Trim(Lowered(a))) == Number(Trim(Lowered(b)))
  {
    FormatDenotes(Number(Trim(Lowered(a))));
    FormatDenotes(Number(Trim(Lowered(b))));
  }

  // ---- one member's report ------------------------------------------------------------------------

  /** A metric value; anything a float can be that the checks below tell apart. */
  datatype Value = Whole(n: int) | Fraction | NotFinite

  /** One metrics line: its name, its value if that parses, and the labels the parser looks at. */
  datatype Line = Line(name: string, value: Option<Value>, peer: Option<string>, own: Option<string>)

  datatype View = View(id: nat, peers: seq<nat>, leader: bool)

  const PEER_PREFIX := "etcd_network_peer_"
  const ID_METRIC := "etcd_server_id"

  predicate IsPeerLine(l: Line) {
    PEER_PREFIX <= l.name && l.peer.Some?
  }

  predicate IsIdLine(l: Line) {
    l.name == ID_METRIC && l.own.Some?
  }

  function IdOf(raw: string): (r: nat)
    requires Canonical(raw).Some?
  {
    Number(Trim(Lowered(raw)))
  }

  predicate Readable(lines: seq<Line>) {
    forall l | l in lines :: (IsPeerLine(l) ==> Canonical(l.peer.value).Some?) && (IsIdLine(l) ==> Canonical(l.own.value).Some?)
  }

  function LastValue(lines: seq<Line>, name: string): (r: Option<Value>) {
    if lines == [] then None
    else
      var l := lines[|lines| - 1];
      if l.name == name && l.value.Some? then l.value else LastValue(lines[..|lines| - 1], name)
  }

  function LastId(lines: seq<Line>): (r: nat)
    requires Readable(lines)
  {
    if lines == [] then 0
    else
      var l := lines[|lines| - 1];
      if IsIdLine(l) then IdOf(l.own.value) else LastId(lines[..|lines| - 1])
  }

  function PeerIds(lines: seq<Line>): (r: set<nat>)
    requires Readable(lines)
  {
    set l | l in lines && IsPeerLine(l) :: IdOf(l.peer.value)
  }

  /** A healthy voter's report: a leader elsewhere or here, no learner, exactly two distinct peers. */
  predicate Accepts(lines: seq<Line>, healthy: bool) {
    && Readable(lines)
    && LastId(lines) != 0
    && (var success := LastValue(lines, "etcd_server_health_success");
        success.Some? && success.value.Whole? && success.value.n > 0)
    && LastValue(lines, "etcd_server_has_leader") == Some(Whole(1))
    && LastValue(lines, "etcd_server_is_leader") in {Some(Whole(0)), Some(Whole(1))}
    && LastValue(lines, "etcd_server_is_learner") == Some(Whole(0))
    && healthy
    && |PeerIds(lines) - {LastId(lines)}| == MEMBER_COUNT - 1
  }

  /** What a parsed report always looks like. */
  predicate WellFormed(v: View) {
    |v.peers| == 2 && v.peers[0] < v.peers[1] && v.id !in v.peers
  }

  method ScanMetrics(lines: seq<Line>) returns (ok: bool, id: nat, peers: set<nat>, metrics: map<string, Value>)
    ensures ok <==> Readable(lines)
    ensures ok ==> id == LastId(lines) && peers == PeerIds(lines)
    ensures ok ==> forall name :: LastValue(lines, name) == if name in metrics then Some(metrics[name]) else None
  {
    id, peers, metrics := 0, {}, map[];
    for k := 0 to |lines|
      invariant Readable(lines[..k])
      invariant id == LastId(lines[..k]) && peers == PeerIds(lines[..k])
      invariant forall name :: LastValue(lines[..k], name) == if name in metrics then Some(metrics[name]) else None
    {
      var l := lines[k];
      assert lines[..k + 1][..k] == lines[..k];
      assert lines[..k + 1] == lines[..k] + [l];
      if l.value.Some? {
        metrics := metrics[l.name := l.value.value];
      }
      if PEER_PREFIX <= l.name && l.peer.Some? {
        if Canonical(l.peer.value).None? {
          assert l in lines && IsPeerLine(l);
          return false, id, peers, metrics;
        }
        peers := peers + {IdOf(l.peer.value)};
      }
      if l.name == ID_METRIC && l.own.Some? {
        if Canonical(l.own.value).None? {
          assert l in lines && IsIdLine(l);
          return false, id, peers, metrics;
        }
        id := IdOf(l.own.value);
      }
    }
    assert lines[..|lines|] == lines;
    ok := true;
  }

  predicate Ascending(ids: seq<nat>) {
    forall j, k | 0 <= j < k < |ids| :: ids[j] < ids[k]
  }

  function Elements(ids: seq<nat>): (r: set<nat>) {
    set id | id in ids
  }

  method InsertSorted(ids: seq<nat>, id: nat) returns (r: seq<nat>)
    requires Ascending(ids) && id !in ids
    ensures Ascending(r) && Elements(r) == Elements(ids) + {id} && |r| == |ids| + 1
  {
    hide Ascending, Elements;
    var k := 0;
    while k < |ids| && ids[k] < id
      invariant 0 <= k <= |ids|
      invariant forall j | 0 <= j < k :: ids[j] < id
    {
      k := k + 1;
    }
    InsertedIsAscending(ids, k, id);
    InsertedElements(ids, k, id);
    r := ids[..k] + [id] + ids[k..];
  }

  lemma InsertedIsAscending(ids: seq<nat>, k: nat, id: nat)
    requires Ascending(ids) && id !in ids && k <= |ids|
    requires (forall j | 0 <= j < k :: ids[j] < id) && (k < |ids| ==> id <= ids[k])
    ensures Ascending(ids[..k] + [id] + ids[k..])
  {
    assert k < |ids| ==> ids[k] in ids;
  }

  lemma InsertedElements(ids: seq<nat>, k: nat, id: nat)
    requires k <= |ids|
    ensures Elements(ids[..k] + [id] + ids[k..]) == Elements(ids) + {id}
  {
    assert ids == ids[..k] + ids[k..];
  }

  /** The elements of a set in ascending order. */
  method Sort(chosen: set<nat>) returns (ids: seq<nat>)
    ensures Ascending(ids) && Elements(ids) == chosen && |ids| == |chosen|
  {
    ids := [];
    var rest := chosen;
    while rest != {}
      invariant Ascending(ids) && Elements(ids) == chosen - rest && rest <= chosen
      invariant |ids| + |rest| == |chosen|
      decreases |rest|
    {
      var id :| id in rest;
      rest := rest - {id};
      assert id !in Elements(ids);
      ids := InsertSorted(ids, id);
    }
  }

  lemma {:induction false} AscendingIsUnique(a: seq<nat>, b: seq<nat>)
    requires Ascending(a) && Ascending(b) && Elements(a) == Elements(b)
    ensures a == b
  {
    EmptyElements(a);
    EmptyElements(b);
    if a != [] && b != [] {
      FirstIsLeast(a, b);
      FirstIsLeast(b, a);
      RestElements(a);
      RestElements(b);
      AscendingIsUnique(a[1..], b[1..]);
      assert a == [a[0]] + a[1..] && b == [b[0]] + b[1..];
    }
  }

  lemma EmptyElements(a: seq<nat>)
    ensures Elements(a) == {} <==> a == []
  {
    if a != [] {
      assert a[0] in Elements(a);
    }
  }

  lemma FirstIsLeast(a: seq<nat>, b: seq<nat>)
    requires Ascending(a) && a != [] && b != [] && Elements(a) == Elements(b)
    ensures a[0] <= b[0]
  {
    assert b[0] in Elements(b);
    var k :| 0 <= k < |a| && a[k] == b[0];
  }

  lemma RestElements(a: seq<nat>)
    requires Ascending(a) && a != []
    ensures Elements(a[1..]) == Elements(a) - {a[0]}
  {
    forall id ensures id in Elements(a[1..]) <==> id in Elements(a) - {a[0]} {
      if id in Elements(a) - {a[0]} {
        var k :| 0 <= k < |a| && a[k] == id;
        assert a[1..][k - 1] == id;
      }
    }
  }

  method MetricIs(metrics: map<string, Value>, name: string, expected: Value) returns (yes: bool)
    ensures yes <==> name in metrics && metrics[name] == expected
  {
    yes := name in metrics && metrics[name] == expected;
  }

  /** Parse one member's report; it is accepted exactly when it shows a healthy voter with two peers. */
  method ParseLocalState(lines: seq<Line>, healthy: bool) returns (view: Option<View>)
    ensures view.Some? <==> Accepts(lines, healthy)
    ensures view.Some? ==> WellFormed(view.value) && view.value.id == LastId(lines)
    ensures view.Some? ==> Elements(view.value.peers) == PeerIds(lines) - {LastId(lines)}
    ensures view.Some? ==> (view.value.leader <==> LastValue(lines, "etcd_server_is_leader") == Some(Whole(1)))
  {
    var ok, id, peers, metrics := ScanMetrics(lines);
    if !ok || id == 0 {
      return None;
    }
    var roles := CheckRoles(metrics);
    AcceptsIsExact(lines, healthy, id, peers, metrics);
    if !roles || !healthy {
      return None;
    }
    var sorted := Sort(peers - {id});
    if |sorted| != MEMBER_COUNT - 1 {
      return None;
    }
    assert id !in Elements(sorted);
    view := Some(View(id, sorted, metrics["etcd_server_is_leader"] == Whole(1)));
  }

  predicate RolesFit(metrics: map<string, Value>) {
    && "etcd_server_health_success" in metrics && metrics["etcd_server_health_success"].Whole? && metrics["etcd_server_health_success"].n > 0
    && "etcd_server_has_leader" in metrics && metrics["etcd_server_has_leader"] == Whole(1)
    && "etcd_server_is_leader" in metrics && metrics["etcd_server_is_leader"] in {Whole(0), Whole(1)}
    && "etcd_server_is_learner" in metrics && metrics["etcd_server_is_learner"] == Whole(0)
  }

  method CheckRoles(metrics: map<string, Value>) returns (ok: bool)
    ensures ok <==> RolesFit(metrics)
  {
    if "etcd_server_health_success" !in metrics {
      return false;
    }
    var success := metrics["etcd_server_health_success"];
    if !success.Whole? || success.n <= 0 {
      return false;
    }
    var hasLeader := MetricIs(metrics, "etcd_server_has_leader", Whole(1));
    var follows := MetricIs(metrics, "etcd_server_is_leader", Whole(0));
    var leads := MetricIs(metrics, "etcd_server_is_leader", Whole(1));
    var voter := MetricIs(metrics, "etcd_server_is_learner", Whole(0));
    ok := hasLeader && (follows || leads) && voter;
  }

  lemma AcceptsIsExact(lines: seq<Line>, healthy: bool, id: nat, peers: set<nat>, metrics: map<string, Value>)
    requires Readable(lines) && id == LastId(lines) && peers == PeerIds(lines)
    requires forall name :: LastValue(lines, name) == if name in metrics then Some(metrics[name]) else None
    ensures Accepts(lines, healthy) <==> id != 0 && RolesFit(metrics) && healthy && |peers - {id}| == MEMBER_COUNT - 1
    ensures RolesFit(metrics) ==> LastValue(lines, "etcd_server_is_leader") == Some(metrics["etcd_server_is_leader"])
  {
    hide LastValue, LastId, PeerIds, Readable;
  }

  // ---- three reports together ---------------------------------------------------------------------

  /** One report per member, absent when its probe or its parse failed; slot 0 is unused. */
  type Reports = r: seq<Option<View>> | |r| == 4
    witness [None, None, None, None]

  predicate AllWellFormed(r: Reports) {
    forall i | 1 <= i <= 3 :: r[i].Some? ==> WellFormed(r[i].value)
  }

  /** Everything a member knows: its own ID and its peers'. */
  function Knows(v: View): (r: set<nat>) {
    {v.id} + Elements(v.peers)
  }

  function Leaders(a: View, b: View, c: View): (r: nat) {
    (if a.leader then 1 else 0) + (if b.leader then 1 else 0) + (if c.leader then 1 else 0)
  }

  /** Three distinct voters, each naming exactly the other two, and exactly one of them leads. */
  predicate TopologyAgrees(r: Reports) {
    && r[1].Some? && r[2].Some? && r[3].Some?
    && r[1].value.id != r[2].value.id && r[1].value.id != r[3].value.id && r[2].value.id != r[3].value.id
    && (forall i | 1 <= i <= 3 :: Elements(r[i].value.peers) == {r[1].value.id, r[2].value.id, r[3].value.id} - {r[i].value.id})
    && Leaders(r[1].value, r[2].value, r[3].value) == 1
  }

  /** Probe the members in order; every server ID may have one owner only. */
  method CollectOwners(r: Reports) returns (ok: bool, owners: set<nat>)
    ensures ok <==> && r[1].Some? && r[2].Some? && r[3].Some?
                    && r[1].value.id != r[2].value.id && r[1].value.id != r[3].value.id && r[2].value.id != r[3].value.id
    ensures ok ==> owners == {r[1].value.id, r[2].value.id, r[3].value.id}
  {
    owners := {};
    for i := 1 to 4
      invariant i > 1 ==> r[1].Some?
      invariant i > 2 ==> r[2].Some? && r[1].value.id != r[2].value.id
      invariant i > 3 ==> r[3].Some? && r[1].value.id != r[3].value.id && r[2].value.id != r[3].value.id
      invariant owners == (if i > 1 then {r[1].value.id} else {}) + (if i > 2 then {r[2].value.id} else {}) + (if i > 3 then {r[3].value.id} else {})
    {
      if r[i].None? || r[i].value.id in owners {
        return false, owners;
      }
      owners := owners + {r[i].value.id};
    }
    ok := true;
  }

  /** The check before a healthy member is stopped. */
  method ValidateTopology(r: Reports) returns (ok: bool)
    requires AllWellFormed(r)
    ensures ok <==> TopologyAgrees(r)
  {
    var owners;
    ok, owners := CollectOwners(r);
    if !ok {
      return;
    }
    var leaders := 0;
    for i := 1 to 4
      invariant forall j | 1 <= j < i :: Elements(r[j].value.peers) == owners - {r[j].value.id}
      invariant leaders == (if i > 1 && r[1].value.leader then 1 else 0) + (if i > 2 && r[2].value.leader then 1 else 0)
                           + (if i > 3 && r[3].value.leader then 1 else 0)
    {
      if r[i].value.leader {
        leaders := leaders + 1;
      }
      var expected := Sort(owners - {r[i].value.id});
      if r[i].value.peers != expected {
        if Elements(r[i].value.peers) == owners - {r[i].value.id} {
          AscendingIsUnique(r[i].value.peers, expected);
        }
        return false;
      }
    }
    ok := leaders == 1;
  }

  /** The ID of the third server as one voter sees it, given the other voter's ID. */
  function RepairTarget(v: View, other: nat): (r: Option<nat>) {
    if |v.peers| != MEMBER_COUNT - 1 || other !in v.peers then None
    else if v.peers[0] != other then Some(v.peers[0])
    else if v.peers[1] != other then Some(v.peers[1])
    else None
  }

  function Voters(target: int): (int, int)
    requires 1 <= target <= 3
  {
    if target == 1 then (2, 3) else if target == 2 then (1, 3) else (1, 2)
  }

  /** Two voters know the same three servers, each other among them, and at most one of them leads. */
  predicate RepairAgrees(r: Reports, target: int)
    requires 1 <= target <= 3
  {
    var (a, b) := Voters(target);
    && r[a].Some? && r[b].Some?
    && r[a].value.id != r[b].value.id
    && r[b].value.id in r[a].value.peers && r[a].value.id in r[b].value.peers
    && Knows(r[a].value) == Knows(r[b].value)
    && !(r[a].value.leader && r[b].value.leader)
  }

  method ValidateRepairQuorum(r: Reports, target: int) returns (ok: bool)
    requires AllWellFormed(r) && 1 <= target <= 3
    ensures ok <==> RepairAgrees(r, target)
  {
    var voters: seq<View> := [];
    for i := 1 to 4
      invariant |voters| == (if i > 1 && target != 1 then 1 else 0) + (if i > 2 && target != 2 then 1 else 0) + (if i > 3 && target != 3 then 1 else 0)
      invariant i > 1 && target != 1 ==> r[1].Some? && voters[0] == r[1].value
      invariant i > 2 && target == 1 ==> r[2].Some? && voters[0] == r[2].value
      invariant i > 2 && target == 3 ==> r[2].Some? && voters[1] == r[2].value
      invariant i > 3 && target != 3 ==> r[3].Some? && voters[1] == r[3].value
    {
      if i != target {
        if r[i].None? {
          return false;
        }
        voters := voters + [r[i].value];
      }
    }
    ok := VotersAgree(voters[0], voters[1]);
  }

  method VotersAgree(left: View, right: View) returns (ok: bool)
    requires WellFormed(left) && WellFormed(right)
    ensures ok <==> && left.id != right.id && right.id in left.peers && left.id in right.peers
                    && Knows(left) == Knows(right) && !(left.leader && right.leader)
  {
    if left.id == right.id || (left.leader && right.leader) {
      return false;
    }
    var leftTarget := RepairTarget(left, right.id);
    var rightTarget := RepairTarget(right, left.id);
    PairOf(left);
    PairOf(right);
    if leftTarget.None? || rightTarget.None? {
      return false;
    }
    assert Knows(left) == {left.id, right.id, leftTarget.value};
    assert Knows(right) == {left.id, right.id, rightTarget.value};
    assert rightTarget.value in Knows(right) && leftTarget.value in Knows(left);
    return leftTarget == rightTarget && leftTarget.value != left.id && leftTarget.value != right.id;
  }

  lemma PairOf(v: View)
    requires WellFormed(v)
    ensures Elements(v.peers) == {v.peers[0], v.peers[1]}
  {
    assert v.peers == [v.peers[0], v.peers[1]];
  }

  /**
  The full check accepts exactly what all three degraded checks accept together, plus a leader:
  no member could be repaired on weaker evidence than a healthy cluster gives.
   */
  lemma ChecksCoincide(r: Reports)
    requires AllWellFormed(r)
    ensures TopologyAgrees(r) <==>
            && (forall target | 1 <= target <= 3 :: RepairAgrees(r, target))
            && (exists i | 1 <= i <= 3 :: r[i].Some? && r[i].value.leader)
  {
    if TopologyAgrees(r) {
      TopologyImpliesRepairs(r);
    }
    if forall target | 1 <= target <= 3 :: RepairAgrees(r, target) {
      assert RepairAgrees(r, 1) && RepairAgrees(r, 2) && RepairAgrees(r, 3);
      var ids := {r[1].value.id, r[2].value.id, r[3].value.id};
      forall i | 1 <= i <= 3 ensures Elements(r[i].value.peers) == ids - {r[i].value.id} {
        PairOf(r[i].value);
      }
    }
  }

  lemma TopologyImpliesRepairs(r: Reports)
    requires AllWellFormed(r) && TopologyAgrees(r)
    ensures forall target | 1 <= target <= 3 :: RepairAgrees(r, target)
    ensures r[1].value.leader || r[2].value.leader || r[3].value.leader
  {
    var ids := {r[1].value.id, r[2].value.id, r[3].value.id};
    forall target | 1 <= target <= 3 ensures RepairAgrees(r, target) {
      var (a, b) := Voters(target);
      assert Elements(r[a].value.peers) == ids - {r[a].value.id};
      assert Elements(r[b].value.peers) == ids - {r[b].value.id};
      assert r[b].value.id in Elements(r[a].value.peers) && r[a].value.id in Elements(r[b].value.peers);
      assert Knows(r[a].value) == ids == Knows(r[b].value);
    }
  }

  /** A degraded check vouches for three distinct servers seen alike by both voters. */
  lemma RepairSeesThreeServers(r: Reports, target: int)
    requires AllWellFormed(r) && 1 <= target <= 3 && RepairAgrees(r, target)
    ensures var (a, b) := Voters(target);
            exists third: nat :: Knows(r[a].value) == Knows(r[b].value) == {r[a].value.id, r[b].value.id, third}
                                 && third != r[a].value.id && third != r[b].value.id
  {
    var (a, b) := Voters(target);
    PairOf(r[a].value);
    var third := if r[a].value.peers[0] == r[b].value.id then r[a].value.peers[1] else r[a].value.peers[0];
    assert Knows(r[a].value) == {r[a].value.id, r[b].value.id, third};
  }
}
