/**
  Reconnect bursts: wall-clock stamps fall into clusters, two stamps being in one cluster when a chain
  of stamps leads from one to the other in steps of at most `gap`. The count made by one pass over the
  sorted stamps is the number of such clusters.
 */
module ReconnectClusters {
  import opened Wrappers

  // ------------------------------------------------------- what a cluster is

  function Distance(x: int, y: int): nat {
    if x < y then y - x else x - y
  }

  /** A chain of stamps from `x` to `y` with no step longer than the gap. */
  ghost predicate Chain(stamps: set<int>, gap: nat, path: seq<int>, x: int, y: int) {
    && path != [] && path[0] == x && path[|path| - 1] == y
    && (forall i :: 0 <= i < |path| ==> path[i] in stamps)
    && (forall i :: 0 <= i < |path| - 1 ==> Distance(path[i], path[i + 1]) <= gap)
  }

  ghost predicate Linked(stamps: set<int>, gap: nat, x: int, y: int) {
    exists path :: Chain(stamps, gap, path, x, y)
  }

  /** The first stamp of a burst: nothing lies within the gap before it. */
  predicate Leads(stamps: set<int>, gap: nat, x: int) {
    x in stamps && forall y :: y in stamps && y < x ==> x - y > gap
  }

  function Leaders(stamps: set<int>, gap: nat): set<int> {
    set x | x in stamps && Leads(stamps, gap, x)
  }

  /** A chain that starts at or after a leader never gets before it. */
  lemma {:induction false} ChainsStayBehindLeaders(stamps: set<int>, gap: nat, path: seq<int>, x: int, y: int, l: int)
    requires Chain(stamps, gap, path, x, y) && Leads(stamps, gap, l) && x >= l
    ensures y >= l
    decreases |path|
  {
    if |path| > 1 {
      assert Distance(path[0], path[0 + 1]) <= gap && path[1] in stamps;
      var rest := path[1..];
      forall i | 0 <= i < |rest| - 1 ensures Distance(rest[i], rest[i + 1]) <= gap {
        assert Distance(path[i + 1], path[i + 1 + 1]) <= gap;
      }
      ChainsStayBehindLeaders(stamps, gap, rest, path[1], y, l);
    }
  }

  function Before(stamps: set<int>, x: int): set<int> {
    set y | y in stamps && y < x
  }

  /** Every stamp is linked to a leader. */
  lemma {:induction false} HasLeader(stamps: set<int>, gap: nat, x: int) returns (l: int, path: seq<int>)
    requires x in stamps
    ensures l in Leaders(stamps, gap) && Chain(stamps, gap, path, x, l)
    decreases Before(stamps, x)
  {
    if Leads(stamps, gap, x) {
      l, path := x, [x];
    } else {
      var y :| y in stamps && y < x && x - y <= gap;
      assert y in Before(stamps, x) && y !in Before(stamps, y);
      assert Before(stamps, y) < Before(stamps, x);
      l, path := HasLeader(stamps, gap, y);
      path := [x] + path;
    }
  }

  /**
    The leaders stand for the clusters one by one: every stamp is linked to one of them, and no two of
    them are linked.
   */
  lemma {:induction false} LeadersAreClusters(stamps: set<int>, gap: nat)
    ensures forall x :: x in stamps ==> exists l :: l in Leaders(stamps, gap) && Linked(stamps, gap, x, l)
    ensures forall l, m ::
              l in Leaders(stamps, gap) && m in Leaders(stamps, gap) && Linked(stamps, gap, l, m) ==> l == m
  {
    forall x | x in stamps ensures exists l :: l in Leaders(stamps, gap) && Linked(stamps, gap, x, l) {
      var l, path := HasLeader(stamps, gap, x);
      assert Linked(stamps, gap, x, l);
    }
    forall l, m | l in Leaders(stamps, gap) && m in Leaders(stamps, gap) && Linked(stamps, gap, l, m) ensures l == m {
      var path :| Chain(stamps, gap, path, l, m);
      ChainsStayBehindLeaders(stamps, gap, path, l, m, l);
      ChainBack(stamps, gap, path, l, m, m);
    }
  }

  /** The same read backwards: a chain that ends at or after a leader did not start before it. */
  lemma {:induction false} ChainBack(stamps: set<int>, gap: nat, path: seq<int>, x: int, y: int, l: int)
    requires Chain(stamps, gap, path, x, y) && Leads(stamps, gap, l) && y >= l
    ensures x >= l
    decreases |path|
  {
    var n := |path|;
    if n > 1 {
      assert Distance(path[n - 2], path[n - 2 + 1]) <= gap && path[n - 2] in stamps;
      ChainBack(stamps, gap, path[..n - 1], x, path[n - 2], l);
    }
  }

  // ------------------------------------------- clusters are equivalence classes

  lemma {:induction false} ChainTurned(stamps: set<int>, gap: nat, path: seq<int>, x: int, y: int)
    requires Chain(stamps, gap, path, x, y)
    ensures Linked(stamps, gap, y, x)
  {
    var n := |path|;
    var turned := seq(n, i requires 0 <= i < n => path[n - 1 - i]);
    forall i | 0 <= i < n - 1 ensures Distance(turned[i], turned[i + 1]) <= gap {
      assert Distance(path[n - 2 - i], path[n - 2 - i + 1]) <= gap;
    }
    assert Chain(stamps, gap, turned, y, x);
  }

  lemma {:induction false} ChainsJoin(
    stamps: set<int>, gap: nat, path: seq<int>, onward: seq<int>, x: int, y: int, z: int)
    requires Chain(stamps, gap, path, x, y) && Chain(stamps, gap, onward, y, z)
    ensures Linked(stamps, gap, x, z)
  {
    var joined := path + onward;
    forall i | 0 <= i < |joined| - 1 ensures Distance(joined[i], joined[i + 1]) <= gap {
      if i < |path| - 1 {
        assert Distance(path[i], path[i + 1]) <= gap;
      } else if i >= |path| {
        var k := i - |path|;
        assert Distance(onward[k], onward[k + 1]) <= gap;
      }
    }
    assert Chain(stamps, gap, joined, x, z);
  }

  /** Being linked is an equivalence on the stamps. */
  lemma {:induction false} LinkedIsEquivalence(stamps: set<int>, gap: nat)
    ensures forall x :: Linked(stamps, gap, x, x) <==> x in stamps
    ensures forall x, y :: Linked(stamps, gap, x, y) ==> Linked(stamps, gap, y, x)
    ensures forall x, y, z ::
      Linked(stamps, gap, x, y) && Linked(stamps, gap, y, z) ==> Linked(stamps, gap, x, z)
  {
    forall x ensures Linked(stamps, gap, x, x) <==> x in stamps {
      if x in stamps {
        assert Chain(stamps, gap, [x], x, x);
      }
    }
    forall x, y | Linked(stamps, gap, x, y) ensures Linked(stamps, gap, y, x) {
      var path :| Chain(stamps, gap, path, x, y);
      ChainTurned(stamps, gap, path, x, y);
    }
    forall x, y, z | Linked(stamps, gap, x, y) && Linked(stamps, gap, y, z) ensures Linked(stamps, gap, x, z) {
      var path :| Chain(stamps, gap, path, x, y);
      var onward :| Chain(stamps, gap, onward, y, z);
      ChainsJoin(stamps, gap, path, onward, x, y, z);
    }
  }

  /** All stamps of the burst of `x`. */
  ghost function Cluster(stamps: set<int>, gap: nat, x: int): set<int> {
    set y | y in stamps && Linked(stamps, gap, x, y)
  }

  ghost function ClustersOf(stamps: set<int>, gap: nat, some: set<int>): set<set<int>> {
    set x | x in some :: Cluster(stamps, gap, x)
  }

  lemma {:induction false} LinkedShareCluster(stamps: set<int>, gap: nat, x: int, y: int)
    requires Linked(stamps, gap, x, y)
    ensures Cluster(stamps, gap, x) == Cluster(stamps, gap, y)
  {
    hide Linked;
    LinkedIsEquivalence(stamps, gap);
  }

  lemma {:induction false} LeadersCountClusters(stamps: set<int>, gap: nat, some: set<int>)
    requires some <= Leaders(stamps, gap)
    ensures |ClustersOf(stamps, gap, some)| == |some|
    decreases some
  {
    hide Linked, Cluster;
    if some == {} {
      assert ClustersOf(stamps, gap, some) == {};
    } else {
      var l :| l in some;
      LeadersCountClusters(stamps, gap, some - {l});
      var rest := ClustersOf(stamps, gap, some - {l});
      assert ClustersOf(stamps, gap, some) == rest + {Cluster(stamps, gap, l)};
      assert Cluster(stamps, gap, l) !in rest by {
        forall m | m in some - {l} ensures Cluster(stamps, gap, m) != Cluster(stamps, gap, l) {
          LeadersDiffer(stamps, gap, l, m);
        }
      }
    }
  }

  lemma {:induction false} LeadersDiffer(stamps: set<int>, gap: nat, l: int, m: int)
    requires l in Leaders(stamps, gap) && m in Leaders(stamps, gap) && l != m
    ensures Cluster(stamps, gap, m) != Cluster(stamps, gap, l)
  {
    hide Linked;
    LinkedIsEquivalence(stamps, gap);
    LeadersAreClusters(stamps, gap);
    assert m in Cluster(stamps, gap, m);
  }

  /** There are as many leaders as there are classes of linked stamps, and each stamp has one leader. */
  lemma {:induction false} AsManyLeadersAsClusters(stamps: set<int>, gap: nat)
    ensures |ClustersOf(stamps, gap, stamps)| == |Leaders(stamps, gap)|
    ensures forall x, l, m | l in Leaders(stamps, gap) && m in Leaders(stamps, gap) ::
      Linked(stamps, gap, x, l) && Linked(stamps, gap, x, m) ==> l == m
  {
    hide Linked, Cluster;
    LinkedIsEquivalence(stamps, gap);
    LeadersAreClusters(stamps, gap);
    var leaders := Leaders(stamps, gap);
    LeadersCountClusters(stamps, gap, leaders);
    forall c | c in ClustersOf(stamps, gap, stamps) ensures c in ClustersOf(stamps, gap, leaders) {
      var x :| x in stamps && Cluster(stamps, gap, x) == c;
      var l :| l in leaders && Linked(stamps, gap, x, l);
      LinkedShareCluster(stamps, gap, x, l);
    }
    assert ClustersOf(stamps, gap, stamps) == ClustersOf(stamps, gap, leaders);
  }

  // -------------------------------------------------------------- the count

  ghost predicate Sorted(s: seq<int>) {
    forall i, j :: 0 <= i < j < |s| ==> s[i] <= s[j]
  }

  function Stamps(s: seq<int>): set<int> {
    set i | 0 <= i < |s| :: s[i]
  }

  method Sort(s: seq<int>) returns (t: seq<int>)
    ensures Sorted(t) && |t| == |s| && Stamps(t) == Stamps(s)
  {
    t := [];
    for i := 0 to |s|
      invariant Sorted(t) && |t| == i && Stamps(t) == Stamps(s[..i])
    {
      var k := 0;
      while k < |t| && t[k] < s[i]
        invariant 0 <= k <= |t|
        invariant forall m :: 0 <= m < k ==> t[m] < s[i]
      {
        k := k + 1;
      }
      Inserted(t, k, s[i]);
      Appended(s[..i], s[i]);
      assert s[..i] + [s[i]] == s[..i + 1];
      t := t[..k] + [s[i]] + t[k..];
    }
    assert s[..|s|] == s;
  }

  lemma {:induction false} Appended(s: seq<int>, x: int)
    ensures Stamps(s + [x]) == Stamps(s) + {x}
  {
    forall y | y in Stamps(s) + {x} ensures y in Stamps(s + [x]) {
      if y in Stamps(s) {
        var i :| 0 <= i < |s| && s[i] == y;
        assert (s + [x])[i] == y;
      } else {
        assert (s + [x])[|s|] == y;
      }
    }
  }

  lemma {:induction false} Inserted(t: seq<int>, k: nat, x: int)
    requires k <= |t|
    ensures Stamps(t[..k] + [x] + t[k..]) == Stamps(t) + {x}
  {
    var u := t[..k] + [x] + t[k..];
    forall y | y in Stamps(t) + {x} ensures y in Stamps(u) {
      if y in Stamps(t) {
        var i :| 0 <= i < |t| && t[i] == y;
        assert u[if i < k then i else i + 1] == y;
      } else {
        assert u[k] == y;
      }
    }
    forall y | y in Stamps(u) ensures y in Stamps(t) + {x} {
      var i :| 0 <= i < |u| && u[i] == y;
      if i != k {
        assert t[if i < k then i else i - 1] == y;
      }
    }
  }

  /** A stamp later than all others changes nothing for them, and leads when it is out of reach of the last one. */
  lemma {:induction false} OneLater(stamps: set<int>, x: int, last: int, gap: nat)
    requires last in stamps && forall y :: y in stamps ==> y <= last <= x
    ensures Leaders(stamps + {x}, gap) == Leaders(stamps, gap) + (if x - last > gap then {x} else {})
    ensures x - last > gap ==> x !in Leaders(stamps, gap)
  {
  }

  lemma {:induction false} OneMoreStamp(s: seq<int>, x: int, gap: nat)
    requires Sorted(s + [x])
    ensures |Leaders(Stamps(s + [x]), gap)| ==
            |Leaders(Stamps(s), gap)| + (if s == [] || x - s[|s| - 1] > gap then 1 else 0)
  {
    hide Leaders, Leads;
    Appended(s, x);
    if s == [] {
      OnlyOne(x, gap);
    } else {
      var last := s[|s| - 1];
      assert (s + [x])[|s| - 1] == last && (s + [x])[|s|] == x;
      assert last in Stamps(s);
      forall y | y in Stamps(s) ensures y <= last <= x {
        var i :| 0 <= i < |s| && s[i] == y;
        assert (s + [x])[i] == y;
      }
      OneLater(Stamps(s), x, last, gap);
    }
  }

  lemma {:induction false} OnlyOne(x: int, gap: nat)
    ensures Leaders(Stamps([]), gap) == {} && Leaders(Stamps([]) + {x}, gap) == {x}
  {
  }

  method CountWallClockClusters(stamps: seq<int>, gap: nat) returns (clusters: nat)
    ensures clusters == |Leaders(Stamps(stamps), gap)|
    ensures clusters == |ClustersOf(Stamps(stamps), gap, Stamps(stamps))|
  {
    AsManyLeadersAsClusters(Stamps(stamps), gap);
    if stamps == [] {
      return 0;
    }
    var ordered := Sort(stamps);
    clusters := 1;
    var previous := ordered[0];
    assert [] + [ordered[0]] == ordered[..1];
    OneMoreStamp([], ordered[0], gap);
    for i := 1 to |ordered|
      invariant previous == ordered[i - 1]
      invariant clusters == |Leaders(Stamps(ordered[..i]), gap)|
    {
      assert ordered[..i] + [ordered[i]] == ordered[..i + 1];
      OneMoreStamp(ordered[..i], ordered[i], gap);
      if ordered[i] - previous > gap {
        clusters := clusters + 1;
      }
      previous := ordered[i];
    }
    assert ordered[..|ordered|] == ordered;
  }

  // ------------------------------------------------------ per profile and all

  datatype Row = Row(stamp: Option<int>, profile: string)

  /** The stamps of one profile, unreadable ones left out. */
  function StampsOf(rows: seq<Row>, profile: string): set<int> {
    set i | 0 <= i < |rows| && rows[i].stamp.Some? && rows[i].profile == profile :: rows[i].stamp.value
  }

  function AllStamps(rows: seq<Row>): set<int> {
    set i | 0 <= i < |rows| && rows[i].stamp.Some? :: rows[i].stamp.value
  }

  function Sum(counts: seq<nat>): nat {
    if counts == [] then 0 else Sum(counts[..|counts| - 1]) + counts[|counts| - 1]
  }

  predicate Distinct(names: seq<string>) {
    forall i, j :: 0 <= i < j < |names| ==> names[i] != names[j]
  }

  /** The groups tell the stamps of every profile that has any. */
  ghost predicate Groups(stampsOf: string -> set<int>, names: seq<string>, grouped: seq<seq<int>>) {
    && |grouped| == |names| && Distinct(names)
    && (forall k :: 0 <= k < |names| ==> Stamps(grouped[k]) == stampsOf(names[k]) != {})
    && (forall p :: stampsOf(p) != {} ==> p in names)
  }

  /** File a stamp under its profile, at the end of its group or in a new one. */
  method File(ghost rows: seq<Row>, names: seq<string>, grouped: seq<seq<int>>, stamp: int, name: string)
    returns (n: seq<string>, g: seq<seq<int>>)
    requires Groups(p => StampsOf(rows, p), names, grouped)
    ensures Groups(p => StampsOf(rows, p) + (if p == name then {stamp} else {}), n, g)
  {
    hide StampsOf;
    var at := 0;
    while at < |names| && names[at] != name
      invariant 0 <= at <= |names|
      invariant forall k :: 0 <= k < at ==> names[k] != name
    {
      at := at + 1;
    }
    if at == |names| {
      assert (p => StampsOf(rows, p))(name) == {};
      Appended([], stamp);
      assert [] + [stamp] == [stamp];
      n, g := names + [name], grouped + [[stamp]];
    } else {
      Appended(grouped[at], stamp);
      n, g := names, grouped[at := grouped[at] + [stamp]];
    }
  }

  /** One pass groups the stamps by profile, in order of first appearance, and keeps them all as well. */
  method Group(rows: seq<Row>) returns (names: seq<string>, grouped: seq<seq<int>>, all: seq<int>)
    ensures Groups(p => StampsOf(rows, p), names, grouped)
    ensures Stamps(all) == AllStamps(rows)
  {
    names, grouped, all := [], [], [];
    for i := 0 to |rows|
      invariant Groups(p => StampsOf(rows[..i], p), names, grouped)
      invariant Stamps(all) == AllStamps(rows[..i])
    {
      hide StampsOf, AllStamps;
      OneMoreRow(rows, i);
      if rows[i].stamp.Some? {
        var stamp, name := rows[i].stamp.value, rows[i].profile;
        names, grouped := File(rows[..i], names, grouped, stamp, name);
        Appended(all, stamp);
        all := all + [stamp];
      }
    }
    assert rows[..|rows|] == rows;
  }

  function OwnStamp(row: Row, profile: string): set<int> {
    if row.stamp.Some? && row.profile == profile then {row.stamp.value} else {}
  }

  lemma {:induction false} OneMoreRow(rows: seq<Row>, i: nat)
    requires i < |rows|
    ensures forall p :: StampsOf(rows[..i + 1], p) == StampsOf(rows[..i], p) + OwnStamp(rows[i], p)
    ensures AllStamps(rows[..i + 1]) ==
            AllStamps(rows[..i]) + (if rows[i].stamp.Some? then {rows[i].stamp.value} else {})
  {
    assert forall k :: 0 <= k < i ==> rows[..i + 1][k] == rows[..i][k];
    assert rows[..i + 1][i] == rows[i];
  }

  /** The union of the stamps of some profiles. */
  function Union(parts: seq<set<int>>): set<int> {
    if parts == [] then {} else Union(parts[..|parts| - 1]) + parts[|parts| - 1]
  }

  function CountsOf(parts: seq<set<int>>, gap: nat): seq<nat> {
    seq(|parts|, i requires 0 <= i < |parts| => |Leaders(parts[i], gap)|)
  }

  /** What leads in a union leads in its own part. */
  lemma {:induction false} UnionCountsLess(a: set<int>, b: set<int>, gap: nat)
    ensures |Leaders(a + b, gap)| <= |Leaders(a, gap)| + |Leaders(b, gap)|
  {
    var both := Leaders(a, gap) + Leaders(b, gap);
    assert Leaders(a + b, gap) <= both;
    NoLarger(Leaders(a + b, gap), both);
    assert |both| <= |Leaders(a, gap)| + |Leaders(b, gap)|;
  }

  /** Counted together there are at most as many clusters as counted apart. */
  lemma {:induction false} TogetherAtMostApart(parts: seq<set<int>>, gap: nat)
    ensures |Leaders(Union(parts), gap)| <= Sum(CountsOf(parts, gap))
  {
    if parts == [] {
      assert Leaders({}, gap) == {};
    } else {
      var before := parts[..|parts| - 1];
      TogetherAtMostApart(before, gap);
      UnionCountsLess(Union(before), parts[|parts| - 1], gap);
      assert CountsOf(parts, gap)[..|parts| - 1] == CountsOf(before, gap);
    }
  }

  lemma {:induction false} InUnion(parts: seq<set<int>>, x: int)
    ensures x in Union(parts) <==> exists i :: 0 <= i < |parts| && x in parts[i]
  {
    if parts != [] {
      var before := parts[..|parts| - 1];
      InUnion(before, x);
      if x in Union(before) {
        var i :| 0 <= i < |before| && x in before[i];
        assert x in parts[i];
      }
      forall i | 0 <= i < |parts| && x in parts[i] ensures x in Union(parts) {
        if i < |before| {
          assert x in before[i];
        }
      }
    }
  }

  /**
    The counts of a report: for every profile the number of its own bursts, and for all of them together
    the number of bursts of the merged stamps, which is never more than the profiles' counts added up.
   */
  method ReconnectClusterCounts(rows: seq<Row>, gap: nat) returns (names: seq<string>, counts: seq<nat>, total: nat)
    ensures |counts| == |names| && Distinct(names)
    ensures forall p :: p in names <==> StampsOf(rows, p) != {}
    ensures forall i :: 0 <= i < |names| ==> counts[i] == |Leaders(StampsOf(rows, names[i]), gap)|
    ensures total == |Leaders(AllStamps(rows), gap)|
    ensures total <= Sum(counts)
  {
    var grouped, all;
    names, grouped, all := Group(rows);
    counts := [];
    for i := 0 to |grouped|
      invariant |counts| == i
      invariant forall k :: 0 <= k < i ==> counts[k] == |Leaders(StampsOf(rows, names[k]), gap)|
    {
      var count := CountWallClockClusters(grouped[i], gap);
      counts := counts + [count];
    }
    total := CountWallClockClusters(all, gap);
    PartsMakeAll(rows, names);
    var parts := seq(|names|, i requires 0 <= i < |names| => StampsOf(rows, names[i]));
    assert counts == CountsOf(parts, gap);
    TogetherAtMostApart(parts, gap);
  }

  lemma {:induction false} PartsMakeAll(rows: seq<Row>, names: seq<string>)
    requires forall p :: StampsOf(rows, p) != {} ==> p in names
    ensures Union(seq(|names|, i requires 0 <= i < |names| => StampsOf(rows, names[i]))) == AllStamps(rows)
  {
    var parts := seq(|names|, i requires 0 <= i < |names| => StampsOf(rows, names[i]));
    forall x ensures x in Union(parts) <==> x in AllStamps(rows) {
      InUnion(parts, x);
      if x in AllStamps(rows) {
        var k :| 0 <= k < |rows| && rows[k].stamp.Some? && rows[k].stamp.value == x;
        assert x in StampsOf(rows, rows[k].profile);
        var i :| 0 <= i < |names| && names[i] == rows[k].profile;
        assert x in parts[i];
      }
    }
  }
}
