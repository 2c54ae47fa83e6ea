/**
The saved HA configuration: defaults, the masked subnet, members in ID order, and every check a
normalised configuration has passed.
 */
module Configs {
  import opened Options
  import opened Numbers
  import opened Texts
  import opened Sizes
  import opened Journals

  /** An IPv4 address as the 32-bit number its four bytes spell. */
  type Address = a: int | 0 <= a < 0x1_0000_0000

  // ---- prefixes ------------------------------------------------------------------------------------

  datatype Prefix = Prefix(address: Address, bits: nat)

  /** How many addresses a prefix spans. */
  function Span(p: Prefix): (n: nat)
    requires p.bits <= 32
    ensures n > 0
  {
    Power2(32 - p.bits)
  }

  /** Clearing the low bits of a number below 2^k, and setting them all. */
  function LowCleared(a: nat, n: nat): (r: nat)
    requires n > 0
  {
    a / n * n
  }

  function LowSet(a: nat, n: nat): (r: nat)
    requires n > 0
  {
    a / n * n + (n - 1)
  }

  lemma Cleared(a: nat, n: nat)
    requires n > 0
    ensures LowCleared(a, n) <= a <= LowSet(a, n)
    ensures LowCleared(a, n) / n == a / n
    ensures LowSet(a, n) / n == a / n
  {
    var q := a / n;
    assert a == n * q + a % n;
    QuotientOf(q, 0, n);
    QuotientOf(q, n - 1, n);
  }

  lemma QuotientOf(q: nat, r: nat, n: nat)
    requires r < n
    ensures (q * n + r) / n == q
  {
    var x := q * n + r;
    var k := x / n;
    assert x == n * k + x % n;
    SameQuotient(n, k, q, x % n, r);
  }

  lemma SameQuotient(n: int, k: int, q: int, s: int, r: int)
    requires 0 <= s < n && 0 <= r < n && n * k + s == n * q + r
    ensures k == q
  {
    var d := k - q;
    assert n * d == r - s;
    assert d >= 1 ==> n * d >= n;
    assert d <= -1 ==> n * d <= -n;
  }

  lemma {:induction false} PowersDivide(j: nat, k: nat)
    requires j <= k
    ensures Power2(k) == Power2(k - j) * Power2(j)
  {
    if j > 0 {
      PowersDivide(j - 1, k - 1);
      assert Power2(k - j) * Power2(j) == 2 * (Power2(k - j) * Power2(j - 1));
    }
  }

  lemma TwoTo32()
    ensures Power2(32) == 0x1_0000_0000
  {
    assert Power2(1) == 2;
    PowersDivide(1, 2);
    PowersDivide(2, 4);
    PowersDivide(4, 8);
    PowersDivide(8, 16);
    PowersDivide(16, 32);
  }

  lemma Bounded(q: nat, m: nat, n: nat, r: nat)
    requires n > 0 && n * q + r < m * n
    ensures q * n + (n - 1) < m * n
  {
    assert q >= m ==> n * q >= n * m;
    assert (q + 1) * n == q * n + n;
    assert q + 1 <= m ==> (q + 1) * n <= m * n;
  }

  lemma SpansCover(bits: nat)
    requires bits <= 32
    ensures Power2(bits) * Power2(32 - bits) == 0x1_0000_0000
  {
    TwoTo32();
    PowersDivide(32 - bits, 32);
  }

  lemma LowSetFits(a: Address, bits: nat)
    requires bits <= 32
    ensures LowSet(a, Power2(32 - bits)) < 0x1_0000_0000
  {
    SpansCover(bits);
    LowSetBelow(a, Power2(32 - bits), Power2(bits));
  }

  lemma LowSetBelow(a: nat, n: nat, m: nat)
    requires n > 0 && a < m * n
    ensures LowSet(a, n) < m * n
  {
    Division(a, n);
    QuotientFits(a, a / n, a % n, n, m);
  }

  lemma QuotientFits(a: nat, q: nat, r: nat, n: nat, m: nat)
    requires n > 0 && a == n * q + r && a < m * n
    ensures q * n + (n - 1) < m * n
  {
    Bounded(q, m, n, r);
  }

  function Masked(p: Prefix): (r: Prefix)
    requires p.bits <= 32
  {
    Cleared(p.address, Span(p));
    p.(address := LowCleared(p.address, Span(p)))
  }

  function LastAddress(p: Prefix): (r: Address)
    requires p.bits <= 32
  {
    LowSetFits(Masked(p).address, p.bits);
    LowSet(Masked(p).address, Span(p))
  }

  predicate Contains(p: Prefix, a: Address)
    requires p.bits <= 32
  {
    LowCleared(a, Span(p)) == Masked(p).address
  }

  /** The last address is the network plus 2^(32-bits) - 1, and masking twice is masking once. */
  lemma LastAddressIsBroadcast(p: Prefix, a: Address)
    requires p.bits <= 32
    ensures LastAddress(p) == Masked(p).address + Power2(32 - p.bits) - 1
    ensures Contains(p, a) ==> Masked(p).address <= a <= LastAddress(p)
    ensures Masked(Masked(p)) == Masked(p) && LastAddress(Masked(p)) == LastAddress(p)
  {
    var n := Span(p);
    Cleared(p.address, n);
    Cleared(a, n);
    var net := LowCleared(p.address, n);
    assert net / n == p.address / n;
    assert LowCleared(net, n) == net;
    if Contains(p, a) {
      assert LowSet(a, n) == LowCleared(a, n) + n - 1;
    }
  }

  // ---- members -------------------------------------------------------------------------------------------

  const MAX_PORT := 65535
  const MIN_UNPRIVILEGED := 1024
  const SECOND := 1_000_000_000

  /** `ip` and `macBytes` are what the two texts parse to; a malformed MAC parses to nothing. */
  datatype HAMember = HAMember(id: int, node: string, ip: Option<Address>, mac: string, macBytes: seq<int>, port: int)

  datatype Subnet = Unset | Malformed | Of(prefix: Prefix)

  datatype HAConfig = HAConfig(
    name: string, network: string, subnet: Subnet, cpus: int, memory: string, volumeSize: string,
    timeout: int, members: seq<HAMember>)

  function Digit(id: int): (r: string) {
    if id == 1 then "1" else if id == 2 then "2" else "3"
  }

  function DefaultNode(name: string, id: int): (s: string)
    ensures s != ""
  {
    if name == "ha-lab" then "apc-ha-" + Digit(id) else "apc-" + name + "-" + Digit(id)
  }

  function DefaultMember(name: string, id: int): (r: HAMember) {
    HAMember(id, DefaultNode(name, id), Some(if 1 <= id <= 3 then 0xC0A8_60F0 + id else 0), "02:ac:96:00:00:0" + Digit(id),
             [0x02, 0xac, 0x96, 0, 0, id], 17443 + id - 1)
  }

  function Dressed(name: string, m: HAMember): (r: HAMember) {
    m.(node := if m.node == "" then DefaultNode(name, m.id) else m.node, mac := Lowered(m.mac))
  }

  function DressedAll(name: string, members: seq<HAMember>): (r: seq<HAMember>)
    ensures |r| == |members|
    ensures forall k | 0 <= k < |members| :: r[k] == Dressed(name, members[k])
  {
    if members == [] then [] else DressedAll(name, members[..|members| - 1]) + [Dressed(name, members[|members| - 1])]
  }

  predicate ByID(members: seq<HAMember>) {
    forall j, k | 0 <= j < k < |members| :: members[j].id <= members[k].id
  }

  function Inserted(sorted: seq<HAMember>, m: HAMember): (r: seq<HAMember>) {
    if sorted == [] || sorted[|sorted| - 1].id <= m.id then sorted + [m]
    else Inserted(sorted[..|sorted| - 1], m) + [sorted[|sorted| - 1]]
  }

  function Sorted(members: seq<HAMember>): (r: seq<HAMember>) {
    if members == [] then [] else Inserted(Sorted(members[..|members| - 1]), members[|members| - 1])
  }

  lemma {:induction false} InsertedKeeps(sorted: seq<HAMember>, m: HAMember)
    ensures multiset(Inserted(sorted, m)) == multiset(sorted) + multiset{m}
  {
    if sorted != [] && sorted[|sorted| - 1].id > m.id {
      InsertedKeeps(sorted[..|sorted| - 1], m);
      assert sorted == sorted[..|sorted| - 1] + [sorted[|sorted| - 1]];
    }
  }

  lemma {:induction false} InsertedIsBounded(sorted: seq<HAMember>, m: HAMember, most: int)
    requires m.id <= most && forall k | 0 <= k < |sorted| :: sorted[k].id <= most
    ensures forall k | 0 <= k < |Inserted(sorted, m)| :: Inserted(sorted, m)[k].id <= most
  {
    if sorted != [] && sorted[|sorted| - 1].id > m.id {
      InsertedIsBounded(sorted[..|sorted| - 1], m, most);
    }
  }

  lemma {:induction false} InsertedIsSorted(sorted: seq<HAMember>, m: HAMember)
    requires ByID(sorted)
    ensures ByID(Inserted(sorted, m))
  {
    if sorted != [] && sorted[|sorted| - 1].id > m.id {
      InsertedIsSorted(sorted[..|sorted| - 1], m);
      InsertedIsBounded(sorted[..|sorted| - 1], m, sorted[|sorted| - 1].id);
    }
  }

  lemma {:induction false} SortedIsSorted(members: seq<HAMember>)
    ensures ByID(Sorted(members)) && multiset(Sorted(members)) == multiset(members) && |Sorted(members)| == |members|
  {
    if members != [] {
      var front, last := members[..|members| - 1], members[|members| - 1];
      SortedIsSorted(front);
      InsertedIsSorted(Sorted(front), last);
      InsertedKeeps(Sorted(front), last);
      assert members == front + [last];
    }
    assert |multiset(Sorted(members))| == |multiset(members)|;
  }

  lemma {:induction false} SortedStays(members: seq<HAMember>)
    requires ByID(members)
    ensures Sorted(members) == members
  {
    if members != [] {
      var front, last := members[..|members| - 1], members[|members| - 1];
      SortedStays(front);
      assert members == front + [last];
    }
  }

  /** Locally administered, unicast, six bytes. */
  predicate UsableMac(bytes: seq<int>) {
    |bytes| == 6 && bytes[0] % 2 == 0 && bytes[0] / 2 % 2 == 1
  }

  /** A usable host address: inside the prefix, and not its network, first or last address. */
  predicate UsableAddress(ip: Option<Address>, p: Prefix)
    requires p.bits <= 32
  {
    && ip.Some? && Contains(p, ip.value)
    && ip.value != p.address && ip.value != p.address + 1 && ip.value != LastAddress(p)
  }

  predicate MemberFits(m: HAMember, p: Prefix)
    requires p.bits <= 32
  {
    1 <= m.id <= MEMBER_COUNT && DnsLabel(m.node) && UsableAddress(m.ip, p) && UsableMac(m.macBytes) && 1 <= m.port <= MAX_PORT
  }

  predicate Differ(a: HAMember, b: HAMember) {
    a.id != b.id && a.node != b.node && a.ip != b.ip && a.mac != b.mac && a.port != b.port
  }

  predicate MembersFit(members: seq<HAMember>, p: Prefix)
    requires p.bits <= 32
  {
    && (forall k | 0 <= k < |members| :: MemberFits(members[k], p))
    && (forall j, k | 0 <= j < k < |members| :: Differ(members[j], members[k]))
  }

  // ---- the proxy's port ------------------------------------------------------------------------------------

  predicate PortsFit(members: seq<HAMember>) {
    && members != []
    && (forall k | 0 <= k < |members| :: 1 <= members[k].port <= MAX_PORT)
    && (forall j, k | 0 <= j < k < |members| :: members[j].port != members[k].port)
    && (forall k | 0 <= k < |members| :: members[k].port - 1 >= MIN_UNPRIVILEGED)
  }

  /** The port below the smallest member port: unprivileged, and no member's. */
  method ProxyPort(members: seq<HAMember>) returns (port: Option<int>)
    ensures port.Some? <==> PortsFit(members)
    ensures port.Some? ==> MIN_UNPRIVILEGED <= port.value < MAX_PORT
    ensures port.Some? ==> forall k | 0 <= k < |members| :: port.value < members[k].port
    ensures port.Some? ==> exists k | 0 <= k < |members| :: members[k].port == port.value + 1
  {
    if |members| == 0 {
      return None;
    }
    var minimum := 65536;
    var ports: set<int> := {};
    for k := 0 to |members|
      invariant forall j | 0 <= j < k :: 1 <= members[j].port <= MAX_PORT && minimum <= members[j].port
      invariant forall i, j | 0 <= i < j < k :: members[i].port != members[j].port
      invariant forall p :: p in ports <==> exists j | 0 <= j < k :: members[j].port == p
      invariant if k == 0 then minimum == 65536 else exists j | 0 <= j < k :: members[j].port == minimum
    {
      var port := members[k].port;
      if port < 1 || port > MAX_PORT || port in ports {
        return None;
      }
      ports := ports + {port};
      if port < minimum {
        minimum := port;
      }
    }
    var proxyPort := minimum - 1;
    if proxyPort < MIN_UNPRIVILEGED || proxyPort > MAX_PORT || proxyPort in ports {
      return None;
    }
    port := Some(proxyPort);
  }

  // ---- normalisation ----------------------------------------------------------------------------------------

  function NameOf(c: HAConfig): (r: string) {
    if c.name == "" then "ha-lab" else c.name
  }

  const DEFAULT_PREFIX := Prefix(0xC0A8_6000, 24)

  /** Scalars filled in and the subnet masked. */
  function Filled(c: HAConfig): (r: HAConfig) {
    var name := NameOf(c);
    c.(name := name,
       network := if c.network == "" then "apc-ha-" + (if "ha-" <= name then name[3..] else name) else c.network,
       subnet := if c.subnet.Unset? then Of(DEFAULT_PREFIX)
                 else if c.subnet.Of? && c.subnet.prefix.bits <= 32 then Of(Masked(c.subnet.prefix)) else c.subnet,
       cpus := if c.cpus == 0 then 2 else c.cpus,
       memory := if c.memory == "" then "2G" else c.memory,
       volumeSize := if c.volumeSize == "" then "8G" else c.volumeSize,
       timeout := if c.timeout == 0 then 180 * SECOND else c.timeout)
  }

  function MembersOf(c: HAConfig): (r: seq<HAMember>) {
    var name := NameOf(c);
    if c.members == [] then [DefaultMember(name, 1), DefaultMember(name, 2), DefaultMember(name, 3)] else c.members
  }

  /** The one normal form of a configuration. */
  function Normal(c: HAConfig): (r: HAConfig) {
    Filled(c).(members := DressedAll(NameOf(c), Sorted(MembersOf(c))))
  }

  predicate SizeFits(size: string) {
    Denoted(size).Some? && 0 < Denoted(size).value < LIMIT
  }

  predicate ScalarsFit(c: HAConfig) {
    && DnsLabel(c.name) && DnsLabel(c.network)
    && c.subnet.Of? && c.subnet.prefix.bits <= 30
    && c.cpus >= 2 && SizeFits(c.memory) && SizeFits(c.volumeSize) && c.timeout >= SECOND
  }

  /** Every check of a normalised configuration. */
  predicate Fits(c: HAConfig) {
    && ScalarsFit(c)
    && |c.members| == MEMBER_COUNT
    && MembersFit(c.members, c.subnet.prefix)
    && PortsFit(c.members)
  }

  method SortMembers(members: seq<HAMember>) returns (r: seq<HAMember>)
    ensures r == Sorted(members)
  {
    r := [];
    for k := 0 to |members|
      invariant r == Sorted(members[..k])
    {
      r := InsertMember(r, members[k]);
      assert members[..k + 1][..k] == members[..k];
    }
    assert members[..|members|] == members;
  }

  method InsertMember(sorted: seq<HAMember>, m: HAMember) returns (r: seq<HAMember>)
    ensures r == Inserted(sorted, m)
  {
    var k := |sorted|;
    r := [];
    assert sorted[..k] == sorted;
    while k > 0 && sorted[k - 1].id > m.id
      invariant 0 <= k <= |sorted|
      invariant Inserted(sorted, m) == Inserted(sorted[..k], m) + r && r == sorted[k..]
    {
      k := k - 1;
      assert sorted[..k + 1][..k] == sorted[..k];
      r := [sorted[k]] + r;
      assert Inserted(sorted[..k + 1], m) + sorted[k + 1..] == Inserted(sorted[..k], m) + r;
    }
    r := sorted[..k] + [m] + r;
  }

  method DressMember(name: string, m: HAMember) returns (r: HAMember)
    ensures r == Dressed(name, m)
  {
    r := m;
    if r.node == "" {
      r := r.(node := DefaultNode(name, m.id));
    }
    r := r.(mac := Lowered(m.mac));
  }

  /** The loop over the sorted members: fill in, check, and remember what was seen. */
  method CheckMembers(name: string, members: seq<HAMember>, p: Prefix) returns (ok: bool, dressed: seq<HAMember>)
    requires p.bits <= 32
    ensures ok <==> MembersFit(DressedAll(name, members), p)
    ensures ok ==> dressed == DressedAll(name, members)
  {
    dressed := [];
    assert MembersFit(dressed, p);
    for k := 0 to |members|
      invariant dressed == DressedAll(name, members[..k])
      invariant MembersFit(dressed, p)
    {
      var m := DressMember(name, members[k]);
      assert members[..k + 1][..k] == members[..k];
      var unique := Unseen(dressed, m);
      var usable := CheckMember(m, p);
      if !unique || !usable {
        NotAPrefix(name, members, p, k);
        return false, dressed;
      }
      FitsOneMore(dressed, m, p);
      dressed := dressed + [m];
    }
    assert members[..|members|] == members;
    ok := true;
  }

  lemma FitsOneMore(members: seq<HAMember>, m: HAMember, p: Prefix)
    requires p.bits <= 32 && MembersFit(members, p) && MemberFits(m, p)
    requires forall j | 0 <= j < |members| :: Differ(members[j], m)
    ensures MembersFit(members + [m], p)
  {
  }

  /** One bad member spoils the whole list. */
  lemma NotAPrefix(name: string, members: seq<HAMember>, p: Prefix, k: nat)
    requires p.bits <= 32 && k < |members|
    requires var m := Dressed(name, members[k]);
             !MemberFits(m, p) || exists j | 0 <= j < k :: !Differ(DressedAll(name, members[..k])[j], m)
    ensures !MembersFit(DressedAll(name, members), p)
  {
    var all := DressedAll(name, members);
    assert all[k] == Dressed(name, members[k]);
    assert forall j | 0 <= j < k :: DressedAll(name, members[..k])[j] == all[j];
  }

  method Unseen(seen: seq<HAMember>, m: HAMember) returns (ok: bool)
    ensures ok <==> forall j | 0 <= j < |seen| :: Differ(seen[j], m)
  {
    for j := 0 to |seen|
      invariant forall i | 0 <= i < j :: Differ(seen[i], m)
    {
      var s := seen[j];
      if s.id == m.id || s.node == m.node || s.ip == m.ip || s.mac == m.mac || s.port == m.port {
        return false;
      }
    }
    ok := true;
  }

  method CheckMember(m: HAMember, p: Prefix) returns (ok: bool)
    requires p.bits <= 32
    ensures ok <==> MemberFits(m, p)
  {
    if m.id < 1 || m.id > MEMBER_COUNT || !DnsLabel(m.node) {
      return false;
    }
    if m.ip.None? || !Contains(p, m.ip.value) || m.ip.value == p.address || m.ip.value == p.address + 1 || m.ip.value == LastAddress(p) {
      return false;
    }
    ok := UsableMac(m.macBytes) && m.port >= 1 && m.port <= MAX_PORT;
  }

  method CheckScalars(c: HAConfig) returns (ok: bool)
    ensures ok <==> ScalarsFit(c)
  {
    if !DnsLabel(c.name) || !DnsLabel(c.network) || !c.subnet.Of? || c.subnet.prefix.bits > 30 || c.cpus < 2 {
      return false;
    }
    var memory := ParseByteSize(c.memory);
    var volume := ParseByteSize(c.volumeSize);
    ok := memory.Some? && volume.Some? && c.timeout >= SECOND;
  }

  /** Normalise, or refuse: accepted exactly when the normal form passes every check. */
  method Normalize(c: HAConfig) returns (r: Option<HAConfig>)
    ensures r.Some? <==> Fits(Normal(c))
    ensures r.Some? ==> r.value == Normal(c)
  {
    hide Filled, DressedAll, Sorted, MembersFit, PortsFit, ScalarsFit, MembersOf;
    var f := Filled(c);
    var members := MembersOf(c);
    FilledFacts(c);
    SortedIsSorted(members);
    var scalars := CheckScalars(f);
    if !scalars || |members| != MEMBER_COUNT {
      return None;
    }
    var sorted := SortMembers(members);
    var ok, dressed := CheckMembers(f.name, sorted, f.subnet.prefix);
    if !ok {
      return None;
    }
    var port := ProxyPort(dressed);
    r := if port.Some? then Some(f.(members := dressed)) else None;
  }

  lemma FilledFacts(c: HAConfig)
    ensures Filled(c).name == NameOf(c)
    ensures ScalarsFit(Filled(c)) ==> Filled(c).subnet.Of? && Filled(c).subnet.prefix.bits <= 30
    ensures forall members :: ScalarsFit(Filled(c).(members := members)) == ScalarsFit(Filled(c))
  {
    hide DnsLabel, Masked, Denoted;
  }

  // ---- what a normal form is worth ----------------------------------------------------------------------------

  lemma {:induction false} DressedKeepsOrder(name: string, members: seq<HAMember>)
    ensures forall k | 0 <= k < |members| :: DressedAll(name, members)[k].id == members[k].id
  {
  }

  /** The IDs of a fitting configuration are exactly 1, 2 and 3, in this order. */
  lemma NormalIdsAreOrdered(c: HAConfig)
    requires Fits(Normal(c))
    ensures var m := Normal(c).members; m[0].id == 1 && m[1].id == 2 && m[2].id == 3
  {
    SortedIsSorted(MembersOf(c));
    DressedKeepsOrder(NameOf(c), Sorted(MembersOf(c)));
    var m := Normal(c).members;
    assert Differ(m[0], m[1]) && Differ(m[0], m[2]) && Differ(m[1], m[2]);
    assert MemberFits(m[0], Normal(c).subnet.prefix) && MemberFits(m[1], Normal(c).subnet.prefix) && MemberFits(m[2], Normal(c).subnet.prefix);
  }

  /** Stable addresses are distinct hosts strictly between the subnet's first address and its last. */
  lemma NormalAddressesAreUsable(c: HAConfig, k: nat)
    requires Fits(Normal(c)) && k < 3
    ensures var n := Normal(c); var p := n.subnet.prefix;
            && Masked(p) == p
            && p.address + 1 < n.members[k].ip.value < p.address + Power2(32 - p.bits) - 1
            && (forall j | 0 <= j < 3 && j != k :: n.members[j].ip != n.members[k].ip)
  {
    var n := Normal(c);
    var p := n.subnet.prefix;
    NormalSubnetIsMasked(c);
    assert MemberFits(n.members[k], p);
    LastAddressIsBroadcast(p, n.members[k].ip.value);
    forall j | 0 <= j < 3 && j != k ensures n.members[j].ip != n.members[k].ip {
      assert Differ(n.members[if j < k then j else k], n.members[if j < k then k else j]);
    }
  }

  lemma NormalSubnetIsMasked(c: HAConfig)
    requires ScalarsFit(Normal(c))
    ensures Masked(Normal(c).subnet.prefix) == Normal(c).subnet.prefix
  {
    hide Masked, DnsLabel, Denoted;
    if c.subnet.Of? {
      LastAddressIsBroadcast(c.subnet.prefix, 0);
    } else {
      DefaultPrefixIsMasked();
    }
  }

  lemma DefaultPrefixIsMasked()
    ensures Masked(DEFAULT_PREFIX) == DEFAULT_PREFIX
  {
    assert Power2(4) == 16;
    PowersDivide(4, 8);
    assert Span(DEFAULT_PREFIX) == 256;
  }

  /** Normalising is idempotent: a normal form that passes is its own normal form. */
  lemma NormalIsIdempotent(c: HAConfig)
    requires Fits(Normal(c))
    ensures Normal(Normal(c)) == Normal(c)
  {
    var n := Normal(c);
    NormalSubnetIsMasked(c);
    NormalIdsAreOrdered(c);
    assert ByID(n.members);
    SortedStays(n.members);
    DressedTwice(n.name, Sorted(MembersOf(c)));
    FilledTwice(c);
    hide Filled, DressedAll, Sorted, Fits;
  }

  lemma FilledTwice(c: HAConfig)
    requires ScalarsFit(Normal(c)) && Masked(Normal(c).subnet.prefix) == Normal(c).subnet.prefix
    ensures Filled(Normal(c)) == Normal(c) && NameOf(Normal(c)) == NameOf(c)
  {
    hide DressedAll, Sorted, Masked, DnsLabel, Denoted;
  }

  lemma DressedTwice(name: string, members: seq<HAMember>)
    ensures DressedAll(name, DressedAll(name, members)) == DressedAll(name, members)
  {
    var once := DressedAll(name, members);
    var twice := DressedAll(name, once);
    forall k | 0 <= k < |members| ensures twice[k] == once[k] {
      LoweredTwice(members[k].mac);
    }
  }
}
