/**
 * The scenario generator: clusters of duplicate identities, one footprint per cluster, and the
 * in-place repair that puts each cluster's canonical report ahead of its other members.
 */
module Scenario {
  import opened Common

  type Footprint = string

  /** `drawn` is the footprint drawn for the report; a report without GPS does not show it. */
  datatype Planned = Planned(idx: int, identity: nat, drawn: Footprint, building: Option<Footprint>,
                             cluster: Option<nat>, canonical: bool, canonicalIdentity: Option<nat>)

  // ------------------------------------------------------------------
  // Clusters
  // ------------------------------------------------------------------

  function Range(lo: nat, hi: nat): (r: seq<nat>)
    requires lo <= hi
    ensures |r| == hi - lo && forall j :: 0 <= j < hi - lo ==> r[j] == lo + j
  {
    seq(hi - lo, i requires 0 <= i => lo + i)
  }

  function Covered(clusters: seq<seq<nat>>): nat
    decreases |clusters|
  {
    if clusters == [] then 0 else Covered(clusters[..|clusters| - 1]) + |clusters[|clusters| - 1]|
  }

  /** At least two identities in a row, from `lo`. */
  predicate Row(c: seq<nat>, lo: nat) {
    |c| >= 2 && forall j :: 0 <= j < |c| ==> c[j] == lo + j
  }

  /** Rows that follow each other from 0. */
  predicate Contiguous(clusters: seq<seq<nat>>)
    decreases |clusters|
  {
    clusters == [] ||
    (var n := |clusters| - 1; Contiguous(clusters[..n]) && Row(clusters[n], Covered(clusters[..n])))
  }

  lemma Extended(clusters: seq<seq<nat>>, c: seq<nat>)
    requires Contiguous(clusters) && Row(c, Covered(clusters))
    ensures Contiguous(clusters + [c]) && Covered(clusters + [c]) == Covered(clusters) + |c|
  {
  }

  /** Appending the lone last identity to the last cluster. */
  lemma Folded(clusters: seq<seq<nat>>, c: seq<nat>)
    requires Contiguous(clusters) && clusters != []
    requires c == clusters[|clusters| - 1] + [Covered(clusters)]
    ensures Contiguous(clusters[|clusters| - 1 := c]) && Covered(clusters[|clusters| - 1 := c]) == Covered(clusters) + 1
  {
  }

  lemma {:induction false} RowAt(clusters: seq<seq<nat>>, k: nat)
    requires Contiguous(clusters) && k < |clusters|
    ensures Row(clusters[k], Covered(clusters[..k]))
    ensures Covered(clusters[..k]) + |clusters[k]| == Covered(clusters[..k + 1]) <= Covered(clusters)
    ensures 2 * k <= Covered(clusters[..k])
    decreases |clusters|
  {
    var n := |clusters| - 1;
    if k < n {
      RowAt(clusters[..n], k);
      assert clusters[..n][..k] == clusters[..k] && clusters[..n][..k + 1] == clusters[..k + 1];
    } else {
      assert clusters[..k + 1] == clusters && clusters[..k + 1][..k] == clusters[..k];
      if k > 0 {
        RowAt(clusters[..n], k - 1);
        assert clusters[..n][..k] == clusters[..k];
      }
    }
  }

  lemma {:induction false} TotalGrows(clusters: seq<seq<nat>>, j: nat, k: nat)
    requires j <= k <= |clusters|
    ensures Covered(clusters[..j]) <= Covered(clusters[..k])
  {
    if j < k {
      TotalGrows(clusters, j, k - 1);
      assert clusters[..k][..k - 1] == clusters[..k - 1];
    }
  }

  predicate InCluster(clusters: seq<seq<nat>>, k: nat, identity: nat) {
    k < |clusters| && identity in clusters[k]
  }

  lemma ClusterBounds(clusters: seq<seq<nat>>, k: nat, identity: nat)
    requires Contiguous(clusters) && k < |clusters|
    ensures InCluster(clusters, k, identity) <==> Covered(clusters[..k]) <= identity < Covered(clusters[..k + 1])
  {
    RowAt(clusters, k);
    var lo := Covered(clusters[..k]);
    if lo <= identity < lo + |clusters[k]| {
      assert clusters[k][identity - lo] == identity;
    }
  }

  /** Main result: the clusters are disjoint. */
  lemma OneClusterEach(clusters: seq<seq<nat>>, j: nat, k: nat, identity: nat)
    requires Contiguous(clusters) && InCluster(clusters, j, identity) && InCluster(clusters, k, identity)
    ensures j == k
  {
    ClusterBounds(clusters, j, identity);
    ClusterBounds(clusters, k, identity);
    if j < k {
      TotalGrows(clusters, j + 1, k);
    } else if k < j {
      TotalGrows(clusters, k + 1, j);
    }
  }

  ghost predicate Clustered(clusters: seq<seq<nat>>, identity: nat) {
    exists k: nat :: InCluster(clusters, k, identity)
  }

  /** Main result: the clusters cover the identities below their total size, and no other. */
  lemma {:induction false} CoveredExactly(clusters: seq<seq<nat>>, identity: nat)
    requires Contiguous(clusters)
    ensures Clustered(clusters, identity) <==> identity < Covered(clusters)
    decreases |clusters|
  {
    if clusters != [] {
      var n := |clusters| - 1;
      CoveredExactly(clusters[..n], identity);
      ClusterBounds(clusters, n, identity);
      assert clusters[..n + 1] == clusters;
      if Clustered(clusters[..n], identity) {
        var k: nat :| InCluster(clusters[..n], k, identity);
        assert InCluster(clusters, k, identity);
      }
      if k: nat :| InCluster(clusters, k, identity) && k < n {
        assert InCluster(clusters[..n], k, identity);
      }
    }
  }

  /** The drawn size of a cluster: max(2, draw + 2). */
  function DrawnSize(draw: nat): nat {
    if draw + 2 > 2 then draw + 2 else 2
  }

  /** Every cluster but the last has its drawn size, the sample and two; the last may be cut short by the end of the
      identities, or hold one more that was left over. */
  predicate DrawnSizes(clusters: seq<seq<nat>>, draw: nat -> nat, spare: nat) {
    && (forall k :: 0 <= k < |clusters| - 1 ==> |clusters[k]| == draw(k) + 2)
    && (clusters != [] ==> |clusters[|clusters| - 1]| <= draw(|clusters| - 1) + 2 + spare)
  }

  /** The partition loop; `draw(k)` is the k-th Poisson sample. A single identity makes no cluster. */
  method PartitionClusters(nDup: nat, draw: nat -> nat) returns (clusters: seq<seq<nat>>)
    ensures Contiguous(clusters)
    ensures Covered(clusters) == if nDup == 1 then 0 else nDup
    ensures DrawnSizes(clusters, draw, 1)
  {
    clusters := [];
    var i := 0;
    while i < nDup
      invariant 0 <= i <= nDup && i == Covered(clusters) && Contiguous(clusters)
      invariant clusters == [] <==> i == 0
      invariant DrawnSizes(clusters, draw, 0)
      invariant i < nDup && clusters != [] ==> |clusters[|clusters| - 1]| == DrawnSize(draw(|clusters| - 1))
    {
      var size := DrawnSize(draw(|clusters|));
      size := if size < nDup - i then size else nDup - i;
      if size < 2 {
        if clusters != [] {
          var last := |clusters| - 1;
          Folded(clusters, clusters[last] + Range(i, nDup));
          clusters := clusters[last := clusters[last] + Range(i, nDup)];
        }
        i := nDup;
        break;
      }
      Extended(clusters, Range(i, i + size));
      clusters := clusters + [Range(i, i + size)];
      i := i + size;
    }
  }

  // ------------------------------------------------------------------
  // Footprints
  // ------------------------------------------------------------------

  /** The clusters with the two tables built from them: each identity's cluster and its first member. */
  datatype Layout = Layout(clusters: seq<seq<nat>>, clusterOf: map<nat, nat>, canonOf: map<nat, nat>)

  ghost predicate Tabled(l: Layout, x: nat) {
    && x in l.clusterOf && x in l.canonOf
    && InCluster(l.clusters, l.clusterOf[x], x)
    && l.canonOf[x] == l.clusters[l.clusterOf[x]][0]
  }

  /** The tables name exactly the clustered identities. */
  ghost predicate Indexed(l: Layout) {
    && l.canonOf.Keys == l.clusterOf.Keys
    && (forall k: nat, x :: InCluster(l.clusters, k, x) ==> x in l.clusterOf)
    && (forall x :: x in l.clusterOf ==> Tabled(l, x))
  }

  method IndexClusters(clusters: seq<seq<nat>>) returns (l: Layout)
    ensures l.clusters == clusters && Indexed(l)
  {
    l := Layout(clusters, map[], map[]);
    for k := 0 to |clusters|
      invariant l.clusters == clusters && l.canonOf.Keys == l.clusterOf.Keys
      invariant forall i: nat, x :: i < k && InCluster(clusters, i, x) ==> x in l.clusterOf
      invariant forall x :: x in l.clusterOf ==> Tabled(l, x)
    {
      var cl := clusters[k];
      for j := 0 to |cl|
        invariant l.clusters == clusters && l.canonOf.Keys == l.clusterOf.Keys
        invariant forall i: nat, x :: i < k && InCluster(clusters, i, x) ==> x in l.clusterOf
        invariant forall i :: 0 <= i < j ==> cl[i] in l.clusterOf
        invariant forall x :: x in l.clusterOf ==> Tabled(l, x)
      {
        assert InCluster(clusters, k, cl[j]);
        l := l.(clusterOf := l.clusterOf[cl[j] := k], canonOf := l.canonOf[cl[j] := cl[0]]);
      }
    }
  }

  /** Cluster `k` takes footprint `k`; the other reports take the ones after the clusters', in turn. */
  function FootprintIndex(l: Layout, identity: nat): nat {
    if identity in l.clusterOf then l.clusterOf[identity]
    else if identity < Covered(l.clusters) then 0
    else |l.clusters| + (identity - Covered(l.clusters))
  }

  function PlanFor(l: Layout, drawn: Footprint, noGps: bool, identity: nat): Planned {
    if identity in l.clusterOf && identity in l.canonOf then
      Planned(-1, identity, drawn, Some(drawn), Some(l.clusterOf[identity]), identity == l.canonOf[identity],
              Some(l.canonOf[identity]))
    else
      Planned(-1, identity, drawn, if noGps then None else Some(drawn), None, false, None)
  }

  lemma IndexInRange(l: Layout, n: nat, identity: nat)
    requires Contiguous(l.clusters) && Indexed(l) && identity < n
    ensures FootprintIndex(l, identity) < n
    ensures identity in l.clusterOf <==> identity < Covered(l.clusters)
  {
    CoveredExactly(l.clusters, identity);
    if identity in l.clusterOf {
      assert Tabled(l, identity);
      ClusterBounds(l.clusters, l.clusterOf[identity], identity);
      RowAt(l.clusters, l.clusterOf[identity]);
    } else if l.clusters != [] {
      RowAt(l.clusters, |l.clusters| - 1);
    }
  }

  predicate PlannedAs(l: Layout, fps: seq<Footprint>, noGps: nat -> bool, i: nat, spec: Planned) {
    FootprintIndex(l, i) < |fps| && spec == PlanFor(l, fps[FootprintIndex(l, i)], noGps(i), i)
  }

  /** The plan before the shuffle, one report per identity in order. */
  ghost predicate Drafted(l: Layout, fps: seq<Footprint>, noGps: nat -> bool, specs: seq<Planned>) {
    forall i :: 0 <= i < |specs| ==> PlannedAs(l, fps, noGps, i, specs[i])
  }

  lemma ModuloOfSmaller(k: nat, m: nat)
    requires k < m
    ensures k % m == k
  {
  }

  /** The assignment loop over the shuffled footprints. */
  method PlanReports(n: nat, l: Layout, fps: seq<Footprint>, noGps: nat -> bool) returns (specs: seq<Planned>)
    requires Contiguous(l.clusters) && Indexed(l) && n <= |fps|
    ensures |specs| == n
    ensures Drafted(l, fps, noGps, specs)
  {
    specs := [];
    var fpPtr := 0;
    for ident := 0 to n
      invariant |specs| == ident
      invariant fpPtr == if ident <= Covered(l.clusters) then 0 else ident - Covered(l.clusters)
      invariant Drafted(l, fps, noGps, specs)
    {
      IndexInRange(l, n, ident);
      var spec: Planned;
      if ident in l.clusterOf {
        var k := l.clusterOf[ident];
        var canon := l.canonOf[ident];
        ModuloOfSmaller(k, |fps|);
        var ext := fps[k % |fps|];
        spec := Planned(-1, ident, ext, Some(ext), Some(k), ident == canon, Some(canon));
      } else {
        var ext := fps[|l.clusters| + fpPtr];
        fpPtr := fpPtr + 1;
        spec := Planned(-1, ident, ext, if noGps(ident) then None else Some(ext), None, false, None);
      }
      assert PlannedAs(l, fps, noGps, ident, spec);
      specs := specs + [spec];
    }
  }

  ghost predicate SameCluster(l: Layout, i: nat, j: nat) {
    exists k: nat :: InCluster(l.clusters, k, i) && InCluster(l.clusters, k, j)
  }

  lemma IndexEqualIffSameCluster(l: Layout, i: nat, j: nat)
    requires Contiguous(l.clusters) && Indexed(l) && i != j
    ensures FootprintIndex(l, i) == FootprintIndex(l, j) <==> SameCluster(l, i, j)
  {
    IndexInRange(l, i + 1, i);
    IndexInRange(l, j + 1, j);
    if k: nat :| InCluster(l.clusters, k, i) && InCluster(l.clusters, k, j) {
      assert Tabled(l, i) && Tabled(l, j);
      OneClusterEach(l.clusters, k, l.clusterOf[i], i);
      OneClusterEach(l.clusters, k, l.clusterOf[j], j);
    }
    if i in l.clusterOf && j in l.clusterOf && l.clusterOf[i] == l.clusterOf[j] {
      assert Tabled(l, i) && Tabled(l, j);
    }
    ClusteredIndexIsSmall(l, i);
    ClusteredIndexIsSmall(l, j);
  }

  lemma ClusteredIndexIsSmall(l: Layout, i: nat)
    requires Contiguous(l.clusters) && Indexed(l)
    ensures FootprintIndex(l, i) < |l.clusters| <==> i in l.clusterOf
  {
    IndexInRange(l, i + 1, i);
    if i in l.clusterOf {
      assert Tabled(l, i);
    }
  }

  /** Main result: two different reports are given the same footprint exactly when they are in the same
      cluster. */
  lemma SameFootprintIffSameCluster(l: Layout, fps: seq<Footprint>, noGps: nat -> bool, n: nat,
                                    specs: seq<Planned>, i: nat, j: nat)
    requires Contiguous(l.clusters) && Indexed(l) && n <= |fps|
    requires forall a, b :: 0 <= a < b < |fps| ==> fps[a] != fps[b]
    requires |specs| == n && Drafted(l, fps, noGps, specs)
    requires i < n && j < n && i != j
    ensures specs[i].drawn == specs[j].drawn <==> SameCluster(l, i, j)
  {
    assert PlannedAs(l, fps, noGps, i, specs[i]) && PlannedAs(l, fps, noGps, j, specs[j]);
    IndexEqualIffSameCluster(l, i, j);
  }

  // ------------------------------------------------------------------
  // The repair
  // ------------------------------------------------------------------

  type Places = map<nat, nat>

  /** `pos` says where each identity is, exactly. */
  ghost predicate Inverse(s: seq<Planned>, pos: Places) {
    && (forall i :: 0 <= i < |s| ==> s[i].identity in pos && pos[s[i].identity] == i)
    && (forall x :: x in pos ==> pos[x] < |s| && s[pos[x]].identity == x)
  }

  /** No report was altered, lost or added: `t` holds the same reports in other places. */
  ghost predicate Moved(s: seq<Planned>, p: Places, t: seq<Planned>, q: Places) {
    && Inverse(s, p) && Inverse(t, q)
    && |t| == |s| && q.Keys == p.Keys && multiset(t) == multiset(s)
    && forall x :: x in p ==> t[q[x]] == s[p[x]]
  }

  /** Report `x` arrives before report `y`. */
  predicate Ahead(pos: Places, x: nat, y: nat) {
    x in pos && y in pos && pos[x] < pos[y]
  }

  /** The canonical report comes before every other of the first `j` members. */
  predicate CanonicalFirst(pos: Places, cl: seq<nat>, j: nat) {
    forall i :: 0 < i < j && i < |cl| ==> Ahead(pos, cl[0], cl[i])
  }

  predicate AllPlaced(pos: Places, cl: seq<nat>) {
    forall i :: 0 <= i < |cl| ==> cl[i] in pos
  }

  function Swapped(s: seq<Planned>, i: nat, j: nat): (t: seq<Planned>)
    requires i < |s| && j < |s|
    ensures multiset(t) == multiset(s)
  {
    s[i := s[j]][j := s[i]]
  }

  lemma SwapMoves(s: seq<Planned>, pos: Places, x: nat, y: nat)
    requires Inverse(s, pos) && x in pos && y in pos
    ensures Moved(s, pos, Swapped(s, pos[x], pos[y]), pos[x := pos[y]][y := pos[x]])
  {
  }

  lemma MovedTrans(s: seq<Planned>, p: Places, t: seq<Planned>, q: Places, u: seq<Planned>, r: Places)
    requires Moved(s, p, t, q) && Moved(t, q, u, r)
    ensures Moved(s, p, u, r)
  {
  }

  /** `pos` as the comprehension builds it. */
  method PlacesOf(a: array<Planned>) returns (pos: Places)
    requires forall i, j :: 0 <= i < j < a.Length ==> a[i].identity != a[j].identity
    ensures Inverse(a[..], pos)
  {
    pos := map[];
    for i := 0 to a.Length
      invariant forall k :: 0 <= k < i ==> a[k].identity in pos && pos[a[k].identity] == k
      invariant forall x :: x in pos ==> pos[x] < i && a[pos[x]].identity == x
    {
      pos := pos[a[i].identity := i];
    }
  }

  /** Two reports change places, in the plan and in the table of places. */
  method SwapReports(a: array<Planned>, pos: Places, x: nat, y: nat) returns (q: Places)
    requires Inverse(a[..], pos) && x in pos && y in pos
    modifies a
    ensures Moved(old(a[..]), pos, a[..], q) && q == pos[x := pos[y]][y := pos[x]]
  {
    SwapMoves(a[..], pos, x, y);
    ghost var t := Swapped(a[..], pos[x], pos[y]);
    a[pos[x]], a[pos[y]] := a[pos[y]], a[pos[x]];
    assert a[..] == t;
    q := pos[x := pos[y]][y := pos[x]];
  }

  predicate AllDifferent(cl: seq<nat>) {
    forall i, j :: 0 <= i < j < |cl| ==> cl[i] != cl[j]
  }

  /** Exchanging the canonical report with the member that was found ahead of it. */
  lemma SwapKeepsFirst(pos: Places, cl: seq<nat>, j: nat)
    requires AllPlaced(pos, cl) && AllDifferent(cl) && 0 < j < |cl|
    requires CanonicalFirst(pos, cl, j) && pos[cl[j]] < pos[cl[0]]
    ensures CanonicalFirst(pos[cl[j] := pos[cl[0]]][cl[0] := pos[cl[j]]], cl, j + 1)
  {
  }

  ghost predicate KeepsOthers(pos: Places, q: Places, cl: seq<nat>) {
    q.Keys == pos.Keys && forall x :: x in pos && x !in cl ==> q[x] == pos[x]
  }

  /** One cluster: whenever a member is found ahead of the canonical report the two change places. */
  method RepairCluster(a: array<Planned>, pos: Places, cl: seq<nat>) returns (q: Places)
    requires Inverse(a[..], pos) && AllPlaced(pos, cl) && |cl| >= 2 && AllDifferent(cl)
    modifies a
    ensures Moved(old(a[..]), pos, a[..], q)
    ensures CanonicalFirst(q, cl, |cl|) && KeepsOthers(pos, q, cl)
  {
    q := pos;
    var canon := cl[0];
    var cpos := q[canon];
    for j := 1 to |cl|
      invariant Moved(old(a[..]), pos, a[..], q)
      invariant canon in q && cpos == q[canon]
      invariant CanonicalFirst(q, cl, j) && KeepsOthers(pos, q, cl)
    {
      var ident := cl[j];
      if q[ident] < cpos {
        ghost var before, r := a[..], q;
        SwapKeepsFirst(q, cl, j);
        q := SwapReports(a, q, ident, canon);
        MovedTrans(old(a[..]), pos, before, r, a[..], q);
        cpos := q[canon];
      }
    }
  }

  ghost predicate HasReport(s: seq<Planned>, x: nat) {
    exists i :: 0 <= i < |s| && s[i].identity == x
  }

  lemma ClusterPlaced(clusters: seq<seq<nat>>, k: nat, s: seq<Planned>, pos: Places)
    requires Contiguous(clusters) && k < |clusters| && Inverse(s, pos)
    requires forall x: nat :: x < Covered(clusters) ==> HasReport(s, x)
    ensures AllPlaced(pos, clusters[k]) && AllDifferent(clusters[k]) && |clusters[k]| >= 2
    ensures forall i :: 0 <= i < |clusters[k]| ==> clusters[k][i] < Covered(clusters)
  {
    RowAt(clusters, k);
    forall i | 0 <= i < |clusters[k]|
      ensures clusters[k][i] in pos
    {
      assert HasReport(s, clusters[k][i]);
    }
  }

  lemma FirstKept(r: Places, q: Places, cl: seq<nat>)
    requires CanonicalFirst(r, cl, |cl|) && q.Keys == r.Keys
    requires forall j :: 0 <= j < |cl| && cl[j] in r ==> q[cl[j]] == r[cl[j]]
    ensures CanonicalFirst(q, cl, |cl|)
  {
    forall i | 0 < i < |cl|
      ensures Ahead(q, cl[0], cl[i])
    {
      assert Ahead(r, cl[0], cl[i]);
    }
  }

  lemma OtherClustersKept(clusters: seq<seq<nat>>, i: nat, k: nat, r: Places, q: Places)
    requires Contiguous(clusters) && i < k < |clusters| && KeepsOthers(r, q, clusters[k])
    requires CanonicalFirst(r, clusters[i], |clusters[i]|)
    ensures CanonicalFirst(q, clusters[i], |clusters[i]|)
  {
    var cl := clusters[i];
    forall j | 0 <= j < |cl|
      ensures cl[j] !in clusters[k]
    {
      if InCluster(clusters, k, cl[j]) {
        assert InCluster(clusters, i, cl[j]);
        OneClusterEach(clusters, i, k, cl[j]);
      }
    }
    FirstKept(r, q, cl);
  }

  ghost predicate CanonicalsFirst(pos: Places, clusters: seq<seq<nat>>, k: nat) {
    forall i :: 0 <= i < k && i < |clusters| ==> CanonicalFirst(pos, clusters[i], |clusters[i]|)
  }

  lemma ClusterRepaired(clusters: seq<seq<nat>>, k: nat, r: Places, q: Places)
    requires Contiguous(clusters) && k < |clusters| && KeepsOthers(r, q, clusters[k])
    requires CanonicalsFirst(r, clusters, k) && CanonicalFirst(q, clusters[k], |clusters[k]|)
    ensures CanonicalsFirst(q, clusters, k + 1)
  {
    forall i | 0 <= i < k
      ensures CanonicalFirst(q, clusters[i], |clusters[i]|)
    {
      OtherClustersKept(clusters, i, k, r, q);
    }
  }

  /** Reports outside the clusters stay where the shuffle put them. */
  ghost predicate KeepsDistinct(pos: Places, q: Places, n: nat) {
    q.Keys == pos.Keys && forall x :: x in pos && x >= n ==> q[x] == pos[x]
  }

  /** The repair loop: the plan is still a permutation of the shuffled plan, `q` its exact inverse, and
      in every cluster the canonical report comes first. */
  method Repair(a: array<Planned>, clusters: seq<seq<nat>>) returns (ghost pos: Places, q: Places)
    requires Contiguous(clusters)
    requires forall i, j :: 0 <= i < j < a.Length ==> a[i].identity != a[j].identity
    requires forall x: nat :: x < Covered(clusters) ==> HasReport(a[..], x)
    modifies a
    ensures Moved(old(a[..]), pos, a[..], q)
    ensures CanonicalsFirst(q, clusters, |clusters|) && KeepsDistinct(pos, q, Covered(clusters))
  {
    ghost var s := a[..];
    q := PlacesOf(a);
    pos := q;
    for k := 0 to |clusters|
      invariant Moved(s, pos, a[..], q)
      invariant CanonicalsFirst(q, clusters, k) && KeepsDistinct(pos, q, Covered(clusters))
    {
      ClusterPlaced(clusters, k, s, pos);
      ghost var before, r := a[..], q;
      q := RepairCluster(a, q, clusters[k]);
      MovedTrans(s, pos, before, r, a[..], q);
      ClusterRepaired(clusters, k, r, q);
    }
  }

  // ------------------------------------------------------------------
  // The whole plan
  // ------------------------------------------------------------------

  ghost predicate Permutation(order: seq<nat>, n: nat) {
    && |order| == n
    && (forall i :: 0 <= i < n ==> order[i] < n)
    && (forall i, j :: 0 <= i < j < n ==> order[i] != order[j])
    && (forall x: nat :: x < n ==> x in order)
  }

  /** `s` holds reports of the unshuffled plan. */
  ghost predicate ReportsOf(specs: seq<Planned>, s: seq<Planned>) {
    forall i :: 0 <= i < |s| ==> s[i].identity < |specs| && s[i] == specs[s[i].identity]
  }

  lemma MovedReports(specs: seq<Planned>, s: seq<Planned>, p: Places, t: seq<Planned>, q: Places)
    requires Moved(s, p, t, q) && ReportsOf(specs, s)
    ensures ReportsOf(specs, t)
  {
  }

  lemma Shuffled(specs: seq<Planned>, order: seq<nat>, s: seq<Planned>)
    requires Permutation(order, |specs|) && |s| == |specs|
    requires forall i :: 0 <= i < |specs| ==> specs[i].identity == i
    requires forall i :: 0 <= i < |s| ==> s[i] == specs[order[i]]
    ensures ReportsOf(specs, s)
    ensures forall i, j :: 0 <= i < j < |s| ==> s[i].identity != s[j].identity
    ensures forall x: nat :: x < |specs| ==> HasReport(s, x)
  {
    forall i | 0 <= i < |s|
      ensures s[i].identity == order[i]
    {
    }
    forall x: nat | x < |specs|
      ensures HasReport(s, x)
    {
      assert x in order;
      var i :| 0 <= i < |order| && order[i] == x;
      assert s[i].identity == x;
    }
  }

  /** A duplicate arrives after the canonical report it duplicates. */
  predicate CanonicalArrivesFirst(s: seq<Planned>) {
    forall i, j :: 0 <= i < |s| && 0 <= j < |s| && i != j && s[i].canonicalIdentity == Some(s[j].identity) ==> j < i
  }

  lemma CanonicalsArriveFirst(l: Layout, fps: seq<Footprint>, noGps: nat -> bool, specs: seq<Planned>,
                              s: seq<Planned>, q: Places)
    requires Indexed(l) && Inverse(s, q) && ReportsOf(specs, s) && CanonicalsFirst(q, l.clusters, |l.clusters|)
    requires Drafted(l, fps, noGps, specs)
    ensures CanonicalArrivesFirst(s)
  {
  }

  lemma MovedHas(s: seq<Planned>, p: Places, t: seq<Planned>, q: Places, x: nat)
    requires Moved(s, p, t, q) && HasReport(s, x)
    ensures HasReport(t, x)
  {
  }

  /** The shuffle, which may produce any order, and the repair after it. */
  method ShuffleAndRepair(l: Layout, ghost fps: seq<Footprint>, ghost noGps: nat -> bool, specs: seq<Planned>,
                          order: seq<nat>)
    returns (a: array<Planned>)
    requires Contiguous(l.clusters) && Indexed(l) && Drafted(l, fps, noGps, specs)
    requires Covered(l.clusters) <= |specs| && Permutation(order, |specs|)
    ensures fresh(a) && a.Length == |specs|
    ensures ReportsOf(specs, a[..]) && CanonicalArrivesFirst(a[..])
    ensures forall x: nat :: x < |specs| ==> HasReport(a[..], x)
  {
    a := new Planned[|specs|](i requires 0 <= i < |specs| => specs[order[i]]);
    ghost var s := a[..];
    Identities(l, fps, noGps, specs);
    Shuffled(specs, order, s);
    var pos, q := Repair(a, l.clusters);
    MovedReports(specs, s, pos, a[..], q);
    CanonicalsArriveFirst(l, fps, noGps, specs, a[..], q);
    forall x: nat | x < |specs|
      ensures HasReport(a[..], x)
    {
      MovedHas(s, pos, a[..], q, x);
    }
  }

  lemma Identities(l: Layout, fps: seq<Footprint>, noGps: nat -> bool, specs: seq<Planned>)
    requires Drafted(l, fps, noGps, specs)
    ensures forall x :: 0 <= x < |specs| ==> specs[x].identity == x
    ensures ReportsOf(specs, specs)
    ensures forall x: nat :: x < |specs| ==> HasReport(specs, x)
  {
    forall x: nat | x < |specs|
      ensures specs[x].identity == x && HasReport(specs, x)
    {
      assert PlannedAs(l, fps, noGps, x, specs[x]);
    }
  }

  ghost predicate Numbered(s: seq<Planned>, t: seq<Planned>) {
    |t| == |s| && forall i :: 0 <= i < |s| ==> t[i] == s[i].(idx := i)
  }

  method Number(a: array<Planned>)
    modifies a
    ensures Numbered(old(a[..]), a[..])
  {
    for i := 0 to a.Length
      invariant forall k :: 0 <= k < i ==> a[k] == old(a[k]).(idx := k)
      invariant forall k :: i <= k < a.Length ==> a[k] == old(a[k])
    {
      a[i] := a[i].(idx := i);
    }
  }

  /** A finished plan: every identity once, as drafted, numbered in order of arrival. */
  ghost predicate Complete(l: Layout, fps: seq<Footprint>, noGps: nat -> bool, n: nat, plan: seq<Planned>) {
    && |plan| == n
    && (forall i :: 0 <= i < n ==> plan[i].idx == i)
    && (forall i :: 0 <= i < n ==> PlannedAs(l, fps, noGps, plan[i].identity, plan[i].(idx := -1)))
    && (forall x: nat :: x < n ==> HasReport(plan, x))
  }

  lemma NumberedIsComplete(l: Layout, fps: seq<Footprint>, noGps: nat -> bool, specs: seq<Planned>,
                           s: seq<Planned>, t: seq<Planned>)
    requires Drafted(l, fps, noGps, specs) && ReportsOf(specs, s) && |s| == |specs| && Numbered(s, t)
    requires forall x: nat :: x < |specs| ==> HasReport(s, x)
    ensures Complete(l, fps, noGps, |specs|, t)
    ensures CanonicalArrivesFirst(s) ==> CanonicalArrivesFirst(t)
  {
    forall x: nat | x < |specs|
      ensures HasReport(t, x)
    {
      assert HasReport(s, x);
      var i :| 0 <= i < |s| && s[i].identity == x;
      assert t[i].identity == x;
    }
    forall i | 0 <= i < |t|
      ensures PlannedAs(l, fps, noGps, t[i].identity, t[i].(idx := -1))
    {
      assert s[i] == specs[s[i].identity] && PlannedAs(l, fps, noGps, s[i].identity, specs[s[i].identity]);
      assert t[i].(idx := -1) == s[i];
    }
  }

  /** Report `i` of the plan is cluster `k`'s canonical one: no member arrives before it, every member
      names it, and no other is marked. */
  predicate Heads(plan: seq<Planned>, k: nat, i: nat) {
    && i < |plan| && plan[i].canonical && plan[i].cluster == Some(k)
    && forall j :: 0 <= j < |plan| && plan[j].cluster == Some(k) ==>
         i <= j && plan[j].canonicalIdentity == Some(plan[i].identity) && (plan[j].canonical ==> j == i)
  }

  ghost predicate HasHead(plan: seq<Planned>, k: nat) {
    exists i: nat :: Heads(plan, k, i)
  }

  /** Members of a cluster carry its number and show their footprint, with GPS or without; other reports
      carry no cluster, are not canonical, and show theirs if they have GPS. */
  ghost predicate Marked(l: Layout, noGps: nat -> bool, p: Planned) {
    && (forall k: nat :: p.cluster == Some(k) <==> InCluster(l.clusters, k, p.identity))
    && (p.cluster.Some? ==> p.building == Some(p.drawn))
    && (p.cluster.None? ==>
          !p.canonical && p.canonicalIdentity.None?
          && p.building == if noGps(p.identity) then None else Some(p.drawn))
  }

  /** The ground truth of a plan: every report marked, and each cluster with exactly one canonical report. */
  ghost predicate TruthfulPlan(l: Layout, noGps: nat -> bool, plan: seq<Planned>) {
    && (forall i :: 0 <= i < |plan| ==> Marked(l, noGps, plan[i]))
    && (forall k: nat :: k < |l.clusters| ==> HasHead(plan, k))
  }

  lemma PlannedIsMarked(l: Layout, fps: seq<Footprint>, noGps: nat -> bool, p: Planned)
    requires Contiguous(l.clusters) && Indexed(l) && PlannedAs(l, fps, noGps, p.identity, p.(idx := -1))
    ensures Marked(l, noGps, p)
    ensures p.cluster.Some? ==>
              && p.cluster.value < |l.clusters| && l.clusters[p.cluster.value] != []
              && var canon := l.clusters[p.cluster.value][0];
                 p.canonicalIdentity == Some(canon) && (p.canonical <==> p.identity == canon)
  {
    if p.identity in l.clusterOf {
      assert Tabled(l, p.identity);
      forall k: nat | InCluster(l.clusters, k, p.identity)
        ensures k == l.clusterOf[p.identity]
      {
        OneClusterEach(l.clusters, k, l.clusterOf[p.identity], p.identity);
      }
    }
  }

  lemma ClusterHasHead(l: Layout, fps: seq<Footprint>, noGps: nat -> bool, n: nat, plan: seq<Planned>, k: nat)
    returns (i: nat)
    requires Contiguous(l.clusters) && Indexed(l) && Covered(l.clusters) <= n
    requires Complete(l, fps, noGps, n, plan) && CanonicalArrivesFirst(plan) && k < |l.clusters|
    ensures Heads(plan, k, i)
  {
    RowAt(l.clusters, k);
    var canon := l.clusters[k][0];
    assert InCluster(l.clusters, k, canon);
    assert HasReport(plan, canon);
    i :| 0 <= i < |plan| && plan[i].identity == canon;
    PlannedIsMarked(l, fps, noGps, plan[i]);
    forall j | 0 <= j < |plan| && plan[j].cluster == Some(k)
      ensures i <= j && plan[j].canonicalIdentity == Some(plan[i].identity) && (plan[j].canonical ==> j == i)
    {
      PlannedIsMarked(l, fps, noGps, plan[j]);
    }
  }

  lemma CompleteIsTruthful(l: Layout, fps: seq<Footprint>, noGps: nat -> bool, n: nat, plan: seq<Planned>)
    requires Contiguous(l.clusters) && Indexed(l) && Covered(l.clusters) <= n
    requires Complete(l, fps, noGps, n, plan) && CanonicalArrivesFirst(plan)
    ensures TruthfulPlan(l, noGps, plan)
  {
    forall i | 0 <= i < |plan|
      ensures Marked(l, noGps, plan[i])
    {
      PlannedIsMarked(l, fps, noGps, plan[i]);
    }
    forall k: nat | k < |l.clusters|
      ensures HasHead(plan, k)
    {
      var i := ClusterHasHead(l, fps, noGps, n, plan, k);
    }
  }

  datatype PlanError = TooFewFootprints

  /** Without the shuffle the identities arrive in order, and the first of a cluster is the smallest. */
  lemma UnshuffledCanonicalsFirst(l: Layout, fps: seq<Footprint>, noGps: nat -> bool, specs: seq<Planned>)
    requires Contiguous(l.clusters) && Indexed(l) && Drafted(l, fps, noGps, specs)
    ensures CanonicalArrivesFirst(specs)
  {
    forall i, j | 0 <= i < |specs| && 0 <= j < |specs| && i != j
                  && specs[i].canonicalIdentity == Some(specs[j].identity)
      ensures j < i
    {
      assert PlannedAs(l, fps, noGps, i, specs[i]) && PlannedAs(l, fps, noGps, j, specs[j]);
      assert Tabled(l, i);
      RowAt(l.clusters, l.clusterOf[i]);
    }
  }

  /** `generate`: fails when there are fewer footprints than reports; otherwise plans every identity
      once, numbered by arrival, with each canonical report ahead of its duplicates, shuffled or not. */
  method Generate(n: nat, nDup: nat, draw: nat -> nat, fps: seq<Footprint>, noGps: nat -> bool,
                  order: Option<seq<nat>>)
    returns (plan: Result<seq<Planned>, PlanError>, l: Layout)
    requires nDup <= n
    requires order.Some? ==> Permutation(order.value, n)
    ensures plan.Err? <==> |fps| < n
    ensures plan.Ok? ==> Contiguous(l.clusters) && Indexed(l) && Covered(l.clusters) == if nDup == 1 then 0 else nDup
    ensures plan.Ok? ==> Complete(l, fps, noGps, n, plan.value)
    ensures plan.Ok? ==> CanonicalArrivesFirst(plan.value) && TruthfulPlan(l, noGps, plan.value)
  {
    l := Layout([], map[], map[]);
    if |fps| < n {
      return Err(TooFewFootprints), l;
    }
    var clusters := PartitionClusters(nDup, draw);
    l := IndexClusters(clusters);
    var specs := PlanReports(n, l, fps, noGps);
    var a: array<Planned>;
    if order.None? {
      a := new Planned[n](i requires 0 <= i < n => specs[i]);
      assert a[..] == specs;
      Identities(l, fps, noGps, specs);
      UnshuffledCanonicalsFirst(l, fps, noGps, specs);
    } else {
      a := ShuffleAndRepair(l, fps, noGps, specs, order.value);
    }
    ghost var s := a[..];
    Number(a);
    NumberedIsComplete(l, fps, noGps, specs, s, a[..]);
    CompleteIsTruthful(l, fps, noGps, n, a[..]);
    plan := Ok(a[..]);
  }
}
