/** Unit-weight critical path method: earliest and latest starts, slack and priorities. */
module CriticalPath {
  import opened Graph
  import Topo

  /** k edges on the longest dependency chain that starts at id. */
  ghost predicate TailLength(g: seq<Node>, id: Id, k: int) {
    && (exists p :: Walk(g, p) && p[0] == id && |p| == k + 1)
    && (forall p :: Walk(g, p) && p[0] == id ==> |p| <= k + 1)
  }

  /** n nodes on the longest dependency chain that passes through id. */
  ghost predicate LongestThrough(g: seq<Node>, id: Id, n: int) {
    && (exists p :: Walk(g, p) && id in p && |p| == n)
    && (forall p :: Walk(g, p) && id in p ==> |p| <= n)
  }

  /** n nodes on the longest dependency chain of the graph. */
  ghost predicate LongestChain(g: seq<Node>, n: int) {
    && (g != [] ==> exists p :: Walk(g, p) && p[|p| - 1] in Ids(g) && |p| == n)
    && (forall p :: Walk(g, p) && p[|p| - 1] in Ids(g) ==> |p| <= n)
  }

  lemma ChainFromDeps(g: seq<Node>, id: Id, k: nat, best: Id)
    requires k > 0 ==> Edge(g, best, id) && ChainLength(g, best, k - 1)
    requires forall d :: Edge(g, d, id) ==> exists j: nat :: j < k && ChainLength(g, d, j)
    ensures ChainLength(g, id, k)
  {
    if k == 0 {
      assert Walk(g, [id]);
    } else {
      var p :| Walk(g, p) && p[|p| - 1] == best && |p| == k;
      JoinWalks(g, p, [id]);
    }
    forall p | Walk(g, p) && p[|p| - 1] == id ensures |p| <= k + 1 {
      if |p| > 1 {
        var init := p[..|p| - 1];
        SubWalk(g, p, 0, |p| - 1);
        var d := init[|init| - 1];
        assert Edge(g, d, id);
        var j: nat :| j < k && ChainLength(g, d, j);
      }
    }
  }

  lemma TailFromDependents(g: seq<Node>, id: Id, k: int, best: Id)
    requires k >= 0 && (k > 0 ==> Edge(g, id, best) && TailLength(g, best, k - 1))
    requires forall b :: Edge(g, id, b) ==> exists j: int :: j < k && TailLength(g, b, j)
    ensures TailLength(g, id, k)
  {
    if k == 0 {
      assert Walk(g, [id]);
    } else {
      var p :| Walk(g, p) && p[0] == best && |p| == k;
      JoinWalks(g, [id], p);
    }
    forall p | Walk(g, p) && p[0] == id ensures |p| <= k + 1 {
      if |p| > 1 {
        SubWalk(g, p, 1, |p|);
        assert p[1..|p|] == p[1..];
        assert Edge(g, id, p[1]);
        var j: int :| j < k && TailLength(g, p[1], j);
      }
    }
  }

  lemma ThroughExists(g: seq<Node>, id: Id, p: seq<Id>, q: seq<Id>) returns (r: seq<Id>)
    requires Walk(g, p) && p[|p| - 1] == id && Walk(g, q) && q[0] == id
    ensures Walk(g, r) && id in r && |r| == |p| + |q| - 1
  {
    hide Edge;
    r := p + q[1..];
    if |q| > 1 {
      SubWalk(g, q, 1, |q|);
      assert q[1..|q|] == q[1..];
      assert Edge(g, q[0], q[1]);
      JoinWalks(g, p, q[1..]);
    } else {
      assert r == p;
    }
    assert r[|p| - 1] == id;
  }

  lemma ThroughBound(g: seq<Node>, id: Id, up: nat, down: int, r: seq<Id>)
    requires ChainLength(g, id, up) && TailLength(g, id, down) && Walk(g, r) && id in r
    ensures |r| <= up + down + 1
  {
    hide Edge, Walk;
    var i :| 0 <= i < |r| && r[i] == id;
    SubWalk(g, r, 0, i + 1);
    SubWalk(g, r, i, |r|);
    var head, tail := r[0..i + 1], r[i..|r|];
    assert head[|head| - 1] == id && tail[0] == id;
  }

  /** Chains through a node split there. */
  lemma ThroughFromHalves(g: seq<Node>, id: Id, up: nat, down: int)
    requires ChainLength(g, id, up) && TailLength(g, id, down)
    ensures LongestThrough(g, id, up + down + 1)
  {
    hide Edge;
    var p :| Walk(g, p) && p[|p| - 1] == id && |p| == up + 1;
    var q :| Walk(g, q) && q[0] == id && |q| == down + 1;
    var r := ThroughExists(g, id, p, q);
    forall r | Walk(g, r) && id in r ensures |r| <= up + down + 1 {
      ThroughBound(g, id, up, down, r);
    }
  }

  /** Earliest start per id of the listed part of the graph. */
  ghost predicate EarliestStarts(g: seq<Node>, listed: seq<Id>, est: map<Id, int>) {
    && est.Keys == Elems(listed)
    && forall x :: x in est ==> est[x] >= 0 && ChainLength(g, x, est[x])
  }

  method NodeDeps(g: seq<Node>, id: Id) returns (deps: seq<Id>)
    requires UniqueIds(g) && id in Ids(g)
    ensures deps == DepsOf(g, id)
  {
    var i :| 0 <= i < |g| && g[i].id == id;
    NodeAt(g, i);
    deps := g[i].deps;
  }

  /** One step of the forward pass: one more than the largest earliest start among the dependencies. */
  method LatestFinish(g: seq<Node>, id: Id, ghost listed: seq<Id>, est: map<Id, int>) returns (start: int)
    requires UniqueIds(g) && id in Ids(g) && EarliestStarts(g, listed, est)
    requires forall d :: Edge(g, d, id) ==> d in est
    ensures start >= 0 && ChainLength(g, id, start)
  {
    hide Edge, ChainLength, UniqueIds;
    var deps := NodeDeps(g, id);
    forall d ensures Edge(g, d, id) <==> d in deps { EdgeIsDep(g, d, id); }
    start := 0;
    ghost var best := id;
    for k := 0 to |deps|
      invariant start >= 0
      invariant start > 0 ==> best in deps && best in est && est[best] == start - 1
      invariant forall j :: 0 <= j < k ==> deps[j] in est && est[deps[j]] < start
    {
      assert Edge(g, deps[k], id);
      if est[deps[k]] + 1 > start {
        start := est[deps[k]] + 1;
        best := deps[k];
      }
    }
    forall d | Edge(g, d, id) ensures exists j: nat :: j < start && ChainLength(g, d, j) {
      assert est[d] < start && ChainLength(g, d, est[d]);
    }
    ChainFromDeps(g, id, start, best);
  }

  /** Forward pass in topological order. */
  method Forward(g: seq<Node>, order: seq<Id>) returns (est: map<Id, int>)
    requires WellFormed(g) && TopologicalOrder(g, order)
    ensures EarliestStarts(g, order, est)
  {
    hide ChainLength, Edge, Walk, KnownDeps;
    est := map[];
    for i := 0 to |order|
      invariant EarliestStarts(g, order[..i], est)
    {
      var id := order[i];
      assert id in Elems(order);
      forall d | Edge(g, d, id) ensures d in est {
        assert d in order[..i];
      }
      var start := LatestFinish(g, id, order[..i], est);
      est := est[id := start];
      assert order[..i + 1] == order[..i] + [id];
      assert Elems(order[..i + 1]) == Elems(order[..i]) + {id};
    }
    assert order[..|order|] == order;
  }

  method ProjectEnd(g: seq<Node>, order: seq<Id>, est: map<Id, int>) returns (end: int)
    requires WellFormed(g) && TopologicalOrder(g, order) && EarliestStarts(g, order, est)
    ensures LongestChain(g, end) && end >= 0 && forall x :: x in est ==> est[x] < end
  {
    end := 0;
    ghost var best: Id := Id("");
    for i := 0 to |order|
      invariant end >= 0
      invariant end > 0 ==> best in order && est[best] + 1 == end
      invariant forall j :: 0 <= j < i ==> order[j] in est && est[order[j]] < end
    {
      assert order[i] in est;
      if est[order[i]] + 1 > end {
        end := est[order[i]] + 1;
        best := order[i];
      }
    }
    if g != [] {
      assert g[0].id in Elems(order);
      assert best in Elems(order);
      assert ChainLength(g, best, est[best]);
    }
    forall p | Walk(g, p) && p[|p| - 1] in Ids(g) ensures |p| <= end {
      var last := p[|p| - 1];
      assert last in Elems(order);
      assert ChainLength(g, last, est[last]);
    }
  }

  /** Latest start of each id: counted back from end by the longest chain that starts there. */
  ghost predicate LatestStarts(g: seq<Node>, listed: set<Id>, end: int, lst: map<Id, int>) {
    && lst.Keys == Ids(g) && listed <= Ids(g)
    && forall x :: x in listed ==> lst[x] < end && TailLength(g, x, end - 1 - lst[x])
  }

  /** One step of the backward pass: just before the earliest latest start among the dependents. */
  method EarliestDependent(g: seq<Node>, id: Id, ds: seq<Id>, ghost listed: set<Id>, end: int, lst: map<Id, int>)
    returns (start: int)
    requires LatestStarts(g, listed, end, lst)
    requires forall b :: b in ds <==> Edge(g, id, b)
    requires forall b :: b in ds ==> b in listed
    ensures start < end && TailLength(g, id, end - 1 - start)
  {
    hide Edge, TailLength;
    ghost var best := id;
    if |ds| == 0 {
      start := end - 1;
    } else {
      var minLST := end;
      for k := 0 to |ds|
        invariant k == 0 ==> minLST == end
        invariant k > 0 ==> minLST < end && best in ds && lst[best] == minLST
        invariant forall j :: 0 <= j < k ==> ds[j] in lst && minLST <= lst[ds[j]]
      {
        assert ds[k] in listed;
        if lst[ds[k]] < minLST {
          minLST := lst[ds[k]];
          best := ds[k];
        }
      }
      start := minLST - 1;
    }
    LatestDependents(g, id, ds, listed, end, lst, start);
    if |ds| > 0 {
      assert best in listed;
    }
    TailFromDependents(g, id, end - 1 - start, best);
  }

  lemma LatestDependents(g: seq<Node>, id: Id, ds: seq<Id>, listed: set<Id>, end: int, lst: map<Id, int>, start: int)
    requires LatestStarts(g, listed, end, lst)
    requires forall b :: b in ds <==> Edge(g, id, b)
    requires forall b :: b in ds ==> b in listed
    requires forall j :: 0 <= j < |ds| ==> ds[j] in lst && start < lst[ds[j]]
    ensures forall b :: Edge(g, id, b) ==> exists j: int :: j < end - 1 - start && TailLength(g, b, j)
  {
    hide Edge, TailLength;
    forall b | Edge(g, id, b) ensures exists j: int :: j < end - 1 - start && TailLength(g, b, j) {
      assert b in ds;
      assert TailLength(g, b, end - 1 - lst[b]);
    }
  }

  /** In a topological order the dependents of the i-th id stand after it. */
  lemma DependentsLater(g: seq<Node>, order: seq<Id>, i: nat, b: Id)
    requires TopologicalOrder(g, order) && i < |order| && Edge(g, order[i], b)
    ensures b in order[i + 1..]
  {
    assert b in Elems(order);
    var j :| 0 <= j < |order| && order[j] == b;
    assert order[i] in order[..j];
    var k :| 0 <= k < j && order[k] == order[i];
    assert k == i;
    assert order[i + 1..][j - i - 1] == b;
  }

  /** Backward pass in reverse topological order. */
  method Backward(g: seq<Node>, downstream: map<Id, seq<Id>>, order: seq<Id>, end: int) returns (lst: map<Id, int>)
    requires WellFormed(g) && TopologicalOrder(g, order) && Topo.IsDownstream(g, downstream)
    ensures LatestStarts(g, Ids(g), end, lst)
  {
    hide WellFormed, TopologicalOrder, Topo.IsDownstream, LatestStarts, Edge;
    lst := map x | x in Ids(g) :: end - 1;
    var i := |order|;
    NoneLatest(g, end, lst);
    assert order[i..] == [] && Elems<Id>([]) == {};
    while i > 0
      invariant 0 <= i <= |order|
      invariant LatestStarts(g, Elems(order[i..]), end, lst)
    {
      i := i - 1;
      var id := order[i];
      var ds := Topo.Lookup(downstream, id);
      ListsDependents(g, downstream, order, i);
      var start := EarliestDependent(g, id, ds, Elems(order[i + 1..]), end, lst);
      OneMoreLatest(g, order, i, end, lst, start);
      lst := lst[id := start];
    }
    assert order[0..] == order;
    AllListed(g, order);
  }

  lemma NoneLatest(g: seq<Node>, end: int, lst: map<Id, int>)
    requires lst.Keys == Ids(g) && forall x :: x in lst ==> lst[x] == end - 1
    ensures LatestStarts(g, {}, end, lst)
  {
  }

  lemma AllListed(g: seq<Node>, order: seq<Id>)
    requires TopologicalOrder(g, order)
    ensures Elems(order) == Ids(g)
  {
  }

  lemma ListsDependents(g: seq<Node>, downstream: map<Id, seq<Id>>, order: seq<Id>, i: nat)
    requires WellFormed(g) && TopologicalOrder(g, order) && Topo.IsDownstream(g, downstream) && i < |order|
    ensures UniqueIds(g) && order[i] in Ids(g)
    ensures forall b :: b in Topo.Lookup(downstream, order[i]) <==> Edge(g, order[i], b)
    ensures forall b :: b in Topo.Lookup(downstream, order[i]) ==> b in Elems(order[i + 1..])
  {
    hide Edge, KnownDeps, Topo.Downstream;
    var id := order[i];
    assert id in Elems(order);
    forall b ensures b in Topo.Lookup(downstream, id) <==> Edge(g, id, b) {
      Topo.DownstreamIsEdge(g, id, b);
    }
    forall b | Edge(g, id, b) ensures b in Elems(order[i + 1..]) {
      DependentsLater(g, order, i, b);
    }
  }

  lemma OneMoreLatest(g: seq<Node>, order: seq<Id>, i: nat, end: int, lst: map<Id, int>, start: int)
    requires i < |order| && order[i] in Ids(g) && LatestStarts(g, Elems(order[i + 1..]), end, lst)
    requires start < end && TailLength(g, order[i], end - 1 - start)
    ensures LatestStarts(g, Elems(order[i..]), end, lst[order[i] := start])
  {
    hide TailLength;
    assert Elems(order[i..]) == Elems(order[i + 1..]) + {order[i]};
  }

  /** Slack is never negative, and it is zero exactly on the longest chains. */
  lemma SlackMeaning(g: seq<Node>, end: int, x: Id, start: nat, latest: int)
    requires x in Ids(g) && KnownDeps(g)
    requires LongestChain(g, end) && ChainLength(g, x, start) && TailLength(g, x, end - 1 - latest)
    ensures latest - start >= 0
    ensures latest - start == 0 <==> exists p :: Walk(g, p) && p[|p| - 1] in Ids(g) && |p| == end && x in p
    ensures LongestThrough(g, x, end - (latest - start))
  {
    var n := end - (latest - start);
    ThroughFromHalves(g, x, start, end - 1 - latest);
    var p :| Walk(g, p) && x in p && |p| == n;
    if |p| > 1 {
      assert Edge(g, p[|p| - 2], p[|p| - 1]);
    }
    assert p[|p| - 1] in Ids(g);
  }

  lemma PriorityAt(g: seq<Node>, order: seq<Id>, est: map<Id, int>, end: int, lst: map<Id, int>, x: Id)
    requires KnownDeps(g) && TopologicalOrder(g, order) && EarliestStarts(g, order, est)
    requires LongestChain(g, end) && LatestStarts(g, Ids(g), end, lst) && x in Ids(g)
    ensures x in est && x in lst && LongestThrough(g, x, end - (lst[x] - est[x]))
  {
    hide KnownDeps, DepsFirst, ChainLength, TailLength, LongestChain, LongestThrough, Walk, NoDup;
    assert x in Elems(order);
    SlackMeaning(g, end, x, est[x], lst[x]);
  }

  method Priorities(g: seq<Node>, ghost order: seq<Id>, est: map<Id, int>, end: int, lst: map<Id, int>)
    returns (priorities: map<Id, int>)
    requires KnownDeps(g) && TopologicalOrder(g, order) && EarliestStarts(g, order, est)
    requires LongestChain(g, end) && LatestStarts(g, Ids(g), end, lst)
    ensures priorities.Keys == Ids(g)
    ensures forall x :: x in Ids(g) ==> LongestThrough(g, x, priorities[x])
  {
    hide TopologicalOrder, EarliestStarts, LatestStarts, LongestChain, LongestThrough, KnownDeps;
    priorities := map[];
    for i := 0 to |g|
      invariant priorities.Keys == Ids(g[..i])
      invariant forall x :: x in priorities ==> LongestThrough(g, x, priorities[x])
    {
      var x := g[i].id;
      PriorityAt(g, order, est, end, lst, x);
      var slack := lst[x] - est[x];
      priorities := priorities[x := end - slack];
      assert Ids(g[..i + 1]) == Ids(g[..i]) + {x};
    }
    assert g[..|g|] == g;
  }

  /** Each node's priority is the number of nodes on the longest dependency chain through it. */
  method ComputeCriticalPath(g: seq<Node>) returns (priorities: map<Id, int>)
    requires WellFormed(g) && Acyclic(g)
    ensures priorities.Keys == Ids(g)
    ensures forall x :: x in Ids(g) ==> LongestThrough(g, x, priorities[x])
  {
    hide Edge, Walk, Acyclic, KnownDeps, ChainLength, TailLength, LongestThrough, LongestChain;
    hide TopologicalOrder, EarliestStarts, LatestStarts, Topo.KahnOrder, Topo.IsDownstream, LongestChain;
    var downstream, _ := Topo.BuildMaps(g);
    var order := Topo.TopologicalSort(g);
    Topo.KahnDecidesAcyclic(g, order);
    var est := Forward(g, order);
    var end := ProjectEnd(g, order, est);
    var lst := Backward(g, downstream, order, end);
    priorities := Priorities(g, order, est, end, lst);
  }
}
