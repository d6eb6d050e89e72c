/** Degree maps and Kahn's algorithm over a declared dependency graph. */
module Topo {
  import opened Graph

  function Repeat(n: nat, x: Id): seq<Id> {
    if n == 0 then [] else Repeat(n - 1, x) + [x]
  }

  /** The ids listed under dep: one entry per occurrence of dep in a node's dependencies, in declaration order. */
  function Downstream(g: seq<Node>, dep: Id): seq<Id> {
    if g == [] then []
    else
      var last := g[|g| - 1];
      Downstream(g[..|g| - 1], dep) + Repeat(multiset(last.deps)[dep], last.id)
  }

  function Lookup(m: map<Id, seq<Id>>, k: Id): seq<Id> {
    if k in m then m[k] else []
  }

  /** How often x is listed under dep. */
  ghost function Occurrences(g: seq<Node>, dep: Id, x: Id): nat {
    if x in Ids(g) then multiset(DepsOf(g, x))[dep] else 0
  }

  lemma {:induction false} RepeatCount(n: nat, x: Id, y: Id)
    ensures multiset(Repeat(n, x))[y] == if x == y then n else 0
  {
    if n > 0 {
      RepeatCount(n - 1, x, y);
    }
  }

  /** The downstream list of dep holds each dependent once per occurrence, and nothing else. */
  lemma OccurrencesNext(g: seq<Node>, dep: Id, x: Id)
    requires UniqueIds(g) && g != []
    ensures var k := |g| - 1;
            && UniqueIds(g[..k])
            && Occurrences(g, dep, x) == Occurrences(g[..k], dep, x) + if g[k].id == x then multiset(g[k].deps)[dep] else 0
  {
    var k := |g| - 1;
    var init := g[..k];
    NodeAt(g, k);
    if x in Ids(init) {
      var i :| 0 <= i < |init| && init[i].id == x;
      NodeAt(init, i);
      NodeAt(g, i);
    } else {
      assert x in Ids(g) ==> x == g[k].id;
    }
  }

  lemma {:induction false} DownstreamCounts(g: seq<Node>, dep: Id, x: Id)
    requires UniqueIds(g)
    ensures multiset(Downstream(g, dep))[x] == Occurrences(g, dep, x)
  {
    if g != [] {
      OccurrencesNext(g, dep, x);
      hide UniqueIds, Occurrences;
      var k := |g| - 1;
      DownstreamCounts(g[..k], dep, x);
      RepeatCount(multiset(g[k].deps)[dep], g[k].id, x);
    }
  }

  lemma DownstreamIsEdge(g: seq<Node>, dep: Id, x: Id)
    requires UniqueIds(g)
    ensures x in Downstream(g, dep) <==> Edge(g, dep, x)
  {
    DownstreamCounts(g, dep, x);
    EdgeIsDep(g, dep, x);
    assert x in Downstream(g, dep) <==> x in multiset(Downstream(g, dep));
    if x in Ids(g) {
      assert dep in DepsOf(g, x) <==> dep in multiset(DepsOf(g, x));
    }
  }

  lemma DownstreamStep(g: seq<Node>, i: nat, d: Id)
    requires i < |g|
    ensures Downstream(g[..i + 1], d) == Downstream(g[..i], d) + Repeat(multiset(g[i].deps)[d], g[i].id)
  {
    assert g[..i + 1][..i] == g[..i];
  }

  lemma CountStep(deps: seq<Id>, k: nat, d: Id)
    requires k < |deps|
    ensures multiset(deps[..k + 1])[d] == multiset(deps[..k])[d] + if d == deps[k] then 1 else 0
  {
    assert deps[..k + 1] == deps[..k] + [deps[k]];
  }

  /** Every dependency of deps has gained one x per occurrence. */
  ghost predicate Listed(before: map<Id, seq<Id>>, now: map<Id, seq<Id>>, deps: seq<Id>, x: Id) {
    forall d :: Lookup(now, d) == Lookup(before, d) + Repeat(multiset(deps)[d], x)
  }

  lemma ListOneAt(before: map<Id, seq<Id>>, prev: map<Id, seq<Id>>, deps: seq<Id>, k: nat, x: Id, d: Id)
    requires k < |deps|
    requires Lookup(prev, d) == Lookup(before, d) + Repeat(multiset(deps[..k])[d], x)
    ensures Lookup(prev[deps[k] := Lookup(prev, deps[k]) + [x]], d)
            == Lookup(before, d) + Repeat(multiset(deps[..k + 1])[d], x)
  {
    CountStep(deps, k, d);
    var c := multiset(deps[..k])[d];
    assert Repeat(c + 1, x) == Repeat(c, x) + [x];
  }

  lemma ListOne(before: map<Id, seq<Id>>, prev: map<Id, seq<Id>>, deps: seq<Id>, k: nat, x: Id)
    requires k < |deps| && Listed(before, prev, deps[..k], x)
    ensures Listed(before, prev[deps[k] := Lookup(prev, deps[k]) + [x]], deps[..k + 1], x)
  {
    var now := prev[deps[k] := Lookup(prev, deps[k]) + [x]];
    var soFar, upTo := deps[..k], deps[..k + 1];
    forall d ensures Lookup(now, d) == Lookup(before, d) + Repeat(multiset(upTo)[d], x) {
      assert Lookup(prev, d) == Lookup(before, d) + Repeat(multiset(soFar)[d], x);
      ListOneAt(before, prev, deps, k, x, d);
    }
  }

  /** Lists n once under each occurrence of a dependency. */
  method ListUnderDeps(before: map<Id, seq<Id>>, n: Node) returns (downstream: map<Id, seq<Id>>)
    ensures Listed(before, downstream, n.deps, n.id)
  {
    downstream := before;
    for k := 0 to |n.deps|
      invariant Listed(before, downstream, n.deps[..k], n.id)
    {
      ListOne(before, downstream, n.deps, k, n.id);
      var dep := n.deps[k];
      downstream := downstream[dep := Lookup(downstream, dep) + [n.id]];
    }
    assert n.deps[..|n.deps|] == n.deps;
  }

  ghost predicate IsDownstream(g: seq<Node>, downstream: map<Id, seq<Id>>) {
    forall d :: Lookup(downstream, d) == Downstream(g, d)
  }

  lemma IsDownstreamStep(g: seq<Node>, i: nat, before: map<Id, seq<Id>>, now: map<Id, seq<Id>>)
    requires i < |g| && IsDownstream(g[..i], before) && Listed(before, now, g[i].deps, g[i].id)
    ensures IsDownstream(g[..i + 1], now)
  {
    forall d ensures Lookup(now, d) == Downstream(g[..i + 1], d) {
      DownstreamStep(g, i, d);
      assert Lookup(before, d) == Downstream(g[..i], d);
    }
  }

  /** The two maps a scheduler starts from: dependents per dependency, and dependency occurrences per node. */
  method BuildMaps(g: seq<Node>) returns (downstream: map<Id, seq<Id>>, inDegree: map<Id, int>)
    requires UniqueIds(g)
    ensures IsDownstream(g, downstream)
    ensures inDegree.Keys == Ids(g)
    ensures forall x :: x in Ids(g) ==> inDegree[x] == |DepsOf(g, x)|
  {
    downstream, inDegree := map[], map[];
    for i := 0 to |g|
      invariant IsDownstream(g[..i], downstream)
      invariant inDegree.Keys == Ids(g[..i])
      invariant forall j :: 0 <= j < i ==> g[j].id in inDegree && inDegree[g[j].id] == |g[j].deps|
    {
      var n := g[i];
      inDegree := inDegree[n.id := |n.deps|];
      ghost var prev := downstream;
      downstream := ListUnderDeps(downstream, n);
      IsDownstreamStep(g, i, prev, downstream);
      assert Ids(g[..i + 1]) == Ids(g[..i]) + {n.id};
    }
    assert g[..|g|] == g;
    forall x | x in Ids(g) ensures inDegree[x] == |DepsOf(g, x)| {
      var j :| 0 <= j < |g| && g[j].id == x;
      NodeAt(g, j);
    }
  }

  ghost predicate DepsListed(g: seq<Node>, order: seq<Id>, x: Id)
    requires x in Ids(g)
  {
    forall d :: d in DepsOf(g, x) ==> d in order
  }

  /** No node whose dependencies are all listed is missing. */
  ghost predicate Saturated(g: seq<Node>, order: seq<Id>) {
    forall x :: x in Ids(g) && DepsListed(g, order, x) ==> x in order
  }

  /** What Kahn's algorithm delivers on any graph: the largest part that can be ordered. */
  ghost predicate KahnOrder(g: seq<Node>, order: seq<Id>) {
    && NoDup(order)
    && Elems(order) <= Ids(g)
    && DepsFirst(g, order)
    && Saturated(g, order)
  }

  lemma SourceIsListed(g: seq<Node>, order: seq<Id>, rest: set<Id>, x: Id)
    requires WellFormed(g) && rest == Ids(g) - Elems(order) && x in rest && !HasPred(g, rest, x)
    ensures DepsListed(g, order, x)
  {
    forall d | d in DepsOf(g, x) ensures d in order {
      EdgeIsDep(g, d, x);
      assert NodeOf(g, x) in g;
      assert d in Ids(g);
      assert d !in rest;
    }
  }

  lemma AcyclicListsAll(g: seq<Node>, order: seq<Id>)
    requires WellFormed(g) && Saturated(g, order) && Elems(order) <= Ids(g) && Acyclic(g)
    ensures Elems(order) == Ids(g)
  {
    var rest := Ids(g) - Elems(order);
    forall x | x in rest ensures HasPred(g, rest, x) {
      if !HasPred(g, rest, x) {
        SourceIsListed(g, order, rest, x);
      }
    }
    if rest != {} {
      AcyclicHasSource(g, rest);
    }
    assert Ids(g) == Elems(order) + rest;
  }

  lemma FullSize(g: seq<Node>, order: seq<Id>)
    requires UniqueIds(g) && NoDup(order) && Elems(order) <= Ids(g)
    ensures |order| == |g| <==> Elems(order) == Ids(g)
  {
    IdCount(g);
    NoDupSize(order);
    var rest := Ids(g) - Elems(order);
    assert Ids(g) == Elems(order) + rest;
    assert |Ids(g)| == |Elems(order)| + |rest|;
  }

  /** The listing is a full topological order exactly when the graph has no cycle. */
  lemma KahnDecidesAcyclic(g: seq<Node>, order: seq<Id>)
    requires WellFormed(g) && KahnOrder(g, order)
    ensures Acyclic(g) <==> |order| == |g|
    ensures Acyclic(g) <==> TopologicalOrder(g, order)
  {
    FullSize(g, order);
    if Acyclic(g) {
      AcyclicListsAll(g, order);
    }
    if TopologicalOrder(g, order) {
      OrderedIsAcyclic(g, order);
    }
  }

  /** The state of Kahn's loop. debt holds the decrements still owed for the id just taken from the queue. */
  ghost predicate KahnState(g: seq<Node>, inDegree: map<Id, int>, queue: seq<Id>, order: seq<Id>, debt: multiset<Id>) {
    && NoDup(order + queue)
    && inDegree.Keys == Ids(g)
    && (forall x :: x in order + queue ==> x in inDegree && inDegree[x] == 0)
    && (forall x :: x in inDegree && inDegree[x] == 0 ==> x in order + queue)
    && (forall x :: x in inDegree ==> inDegree[x] == Remaining(DepsOf(g, x), Elems(order)) + debt[x])
    && DepsFirst(g, order)
  }

  lemma KahnTake(g: seq<Node>, inDegree: map<Id, int>, queue: seq<Id>, order: seq<Id>)
    requires UniqueIds(g) && queue != [] && KahnState(g, inDegree, queue, order, multiset{})
    ensures KahnState(g, inDegree, queue[1..], order + [queue[0]], multiset(Downstream(g, queue[0])))
  {
    var cur := queue[0];
    var order' := order + [cur];
    assert order' + queue[1..] == order + queue;
    assert (order + queue)[|order|] == cur;
    assert Elems(order') == Elems(order) + {cur};
    assert cur !in Elems(order) by {
      forall i | 0 <= i < |order| ensures order[i] != cur {
        assert (order + queue)[i] != (order + queue)[|order|];
      }
    }
    forall x | x in inDegree
      ensures inDegree[x] == Remaining(DepsOf(g, x), Elems(order')) + multiset(Downstream(g, cur))[x]
    {
      RemainingAdd(DepsOf(g, x), Elems(order), cur);
      DownstreamCounts(g, cur, x);
    }
    RemainingZero(DepsOf(g, cur), Elems(order));
    DepsFirstAppend(g, order, cur);
  }

  lemma DepsFirstAppend(g: seq<Node>, order: seq<Id>, cur: Id)
    requires UniqueIds(g) && DepsFirst(g, order) && cur in Ids(g)
    requires forall d :: d in DepsOf(g, cur) ==> d in order
    ensures DepsFirst(g, order + [cur])
  {
    var order' := order + [cur];
    forall j, a | 0 <= j < |order'| && Edge(g, a, order'[j])
      ensures a in order'[..j]
    {
      if j < |order| {
        assert order'[j] == order[j] && order'[..j] == order[..j];
      } else {
        EdgeIsDep(g, a, cur);
        assert order'[..j] == order;
      }
    }
  }

  lemma KahnDecrement(g: seq<Node>, inDegree: map<Id, int>, queue: seq<Id>, order: seq<Id>, debt: multiset<Id>, x: Id)
    requires UniqueIds(g) && KahnState(g, inDegree, queue, order, debt) && x in debt && x in Ids(g)
    ensures var left := inDegree[x] - 1;
            KahnState(g, inDegree[x := left], if left == 0 then queue + [x] else queue, order, debt - multiset{x})
  {
    var left := inDegree[x] - 1;
    assert x !in order + queue;
    if left == 0 {
      assert order + (queue + [x]) == order + queue + [x];
    }
  }

  lemma KahnDone(g: seq<Node>, inDegree: map<Id, int>, order: seq<Id>)
    requires UniqueIds(g) && KahnState(g, inDegree, [], order, multiset{})
    ensures KahnOrder(g, order)
  {
    assert order + [] == order;
    forall x | x in Ids(g) && DepsListed(g, order, x) ensures x in order {
      RemainingZero(DepsOf(g, x), Elems(order));
    }
  }

  method InitialQueue(g: seq<Node>, inDegree: map<Id, int>) returns (queue: seq<Id>)
    requires UniqueIds(g) && inDegree.Keys == Ids(g)
    ensures NoDup(queue) && forall x :: x in queue <==> x in inDegree && inDegree[x] == 0
  {
    queue := [];
    for i := 0 to |g|
      invariant NoDup(queue)
      invariant forall x :: x in queue <==> x in Ids(g[..i]) && inDegree[x] == 0
    {
      assert g[i].id !in Ids(g[..i]);
      assert Ids(g[..i + 1]) == Ids(g[..i]) + {g[i].id};
      if inDegree[g[i].id] == 0 {
        queue := queue + [g[i].id];
      }
    }
    assert g[..|g|] == g;
  }

  lemma KahnKeys(g: seq<Node>, inDegree: map<Id, int>, queue: seq<Id>, order: seq<Id>, debt: multiset<Id>)
    requires KahnState(g, inDegree, queue, order, debt)
    ensures inDegree.Keys == Ids(g)
  {
  }

  lemma ReleaseStep(g: seq<Node>, cur: Id, ds: seq<Id>, k: nat, inDegree: map<Id, int>, queue: seq<Id>, order: seq<Id>)
    requires UniqueIds(g) && ds == Downstream(g, cur) && k < |ds|
    requires KahnState(g, inDegree, queue, order, multiset(ds[k..]))
    ensures ds[k] in inDegree
    ensures var left := inDegree[ds[k]] - 1;
            KahnState(g, inDegree[ds[k] := left], if left == 0 then queue + [ds[k]] else queue, order, multiset(ds[k + 1..]))
  {
    hide KahnState, UniqueIds, Edge, Downstream;
    var x := ds[k];
    assert ds[k..] == [x] + ds[k + 1..];
    DownstreamIsEdge(g, cur, x);
    EdgeIsDep(g, cur, x);
    KahnKeys(g, inDegree, queue, order, multiset(ds[k..]));
    KahnDecrement(g, inDegree, queue, order, multiset(ds[k..]), x);
    assert multiset(ds[k..]) == multiset{x} + multiset(ds[k + 1..]);
    assert multiset(ds[k..]) - multiset{x} == multiset(ds[k + 1..]);
  }

  /** Decrements every dependent of the id just ordered and queues those that reach zero. */
  method ReleaseDependents(g: seq<Node>, ghost order: seq<Id>, ghost cur: Id, ds: seq<Id>,
                           inDegree0: map<Id, int>, queue0: seq<Id>)
    returns (inDegree: map<Id, int>, queue: seq<Id>)
    requires UniqueIds(g) && ds == Downstream(g, cur)
    requires KahnState(g, inDegree0, queue0, order, multiset(ds))
    ensures KahnState(g, inDegree, queue, order, multiset{})
  {
    inDegree, queue := inDegree0, queue0;
    assert ds[0..] == ds;
    for k := 0 to |ds|
      invariant KahnState(g, inDegree, queue, order, multiset(ds[k..]))
    {
      ReleaseStep(g, cur, ds, k, inDegree, queue, order);
      var left := inDegree[ds[k]] - 1;
      inDegree := inDegree[ds[k] := left];
      if left == 0 {
        queue := queue + [ds[k]];
      }
    }
    assert ds[|ds|..] == [];
  }

  /** Kahn's algorithm. */
  method TopologicalSort(g: seq<Node>) returns (order: seq<Id>)
    requires UniqueIds(g)
    ensures KahnOrder(g, order)
  {
    var downstream, inDegree := BuildMaps(g);
    var queue := InitialQueue(g, inDegree);
    order := [];
    KahnStart(g, inDegree, queue);
    while queue != []
      invariant KahnState(g, inDegree, queue, order, multiset{})
      decreases |g| - |order|
    {
      KahnTake(g, inDegree, queue, order);
      var cur := queue[0];
      queue, order := queue[1..], order + [cur];
      inDegree, queue := ReleaseDependents(g, order, cur, Lookup(downstream, cur), inDegree, queue);
      OrderFits(g, inDegree, queue, order);
    }
    KahnDone(g, inDegree, order);
  }

  lemma KahnStart(g: seq<Node>, inDegree: map<Id, int>, queue: seq<Id>)
    requires inDegree.Keys == Ids(g) && forall x :: x in Ids(g) ==> inDegree[x] == |DepsOf(g, x)|
    requires NoDup(queue) && forall x :: x in queue <==> x in inDegree && inDegree[x] == 0
    ensures KahnState(g, inDegree, queue, [], multiset{})
  {
    assert [] + queue == queue;
    assert Elems<Id>([]) == {};
    forall x | x in inDegree ensures inDegree[x] == Remaining(DepsOf(g, x), {}) {
      RemainingNone(DepsOf(g, x));
    }
  }

  lemma OrderFits(g: seq<Node>, inDegree: map<Id, int>, queue: seq<Id>, order: seq<Id>)
    requires UniqueIds(g) && KahnState(g, inDegree, queue, order, multiset{})
    ensures |order| <= |g|
  {
    IdCount(g);
    assert NoDup(order) by {
      forall i, j | 0 <= i < j < |order| ensures order[i] != order[j] {
        assert (order + queue)[i] != (order + queue)[j];
      }
    }
    NoDupFits(order, Ids(g));
  }
}
