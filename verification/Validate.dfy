/** Admission of a dependency graph: distinct ids, known dependencies, no cycle, one connected component. */
module Validate {
  import opened Graph
  import opened Wrappers
  import Topo
  import Cycle

  datatype Error =
    | DuplicateId(id: Id)
    | UnknownDep(node: Id, dep: Id)
    | CycleAt(id: Id)
    | Disconnected(id: Id)

  /** One of the two depends on the other. */
  ghost predicate Linked(g: seq<Node>, a: Id, b: Id) {
    Edge(g, a, b) || Edge(g, b, a)
  }

  ghost predicate Path(g: seq<Node>, p: seq<Id>) {
    |p| > 0 && forall k :: 0 < k < |p| ==> Linked(g, p[k - 1], p[k])
  }

  ghost predicate Reaches(g: seq<Node>, a: Id, b: Id) {
    exists p :: Path(g, p) && p[0] == a && p[|p| - 1] == b
  }

  ghost predicate Connected(g: seq<Node>) {
    forall a, b :: a in Ids(g) && b in Ids(g) ==> Reaches(g, a, b)
  }

  ghost predicate Admissible(g: seq<Node>) {
    WellFormed(g) && Acyclic(g) && Connected(g)
  }

  lemma ReachesStep(g: seq<Node>, a: Id, b: Id, c: Id)
    requires Reaches(g, a, b) && Linked(g, b, c)
    ensures Reaches(g, a, c)
  {
    var p :| Path(g, p) && p[0] == a && p[|p| - 1] == b;
    var q := p + [c];
    forall k | 0 < k < |q| ensures Linked(g, q[k - 1], q[k]) {
      if k < |p| {
        assert Linked(g, p[k - 1], p[k]);
      }
    }
    assert Path(g, q);
  }

  lemma ReachesSelf(g: seq<Node>, a: Id)
    ensures Reaches(g, a, a)
  {
    assert Path(g, [a]);
  }

  lemma {:induction false} ReachesJoin(g: seq<Node>, a: Id, q: seq<Id>)
    requires Path(g, q) && Reaches(g, a, q[0])
    ensures Reaches(g, a, q[|q| - 1])
    decreases |q|
  {
    if |q| > 1 {
      var init := q[..|q| - 1];
      forall k | 0 < k < |init| ensures Linked(g, init[k - 1], init[k]) {
        assert Linked(g, q[k - 1], q[k]);
      }
      ReachesJoin(g, a, init);
      assert Linked(g, q[|q| - 2], q[|q| - 1]);
      ReachesStep(g, a, q[|q| - 2], q[|q| - 1]);
    }
  }

  lemma ReachesBack(g: seq<Node>, a: Id, b: Id)
    requires Reaches(g, a, b)
    ensures Reaches(g, b, a)
  {
    var p :| Path(g, p) && p[0] == a && p[|p| - 1] == b;
    var n := |p|;
    var r := seq(n, i requires 0 <= i < n => p[n - 1 - i]);
    forall k | 0 < k < |r| ensures Linked(g, r[k - 1], r[k]) {
      assert Linked(g, p[n - 1 - k], p[n - k]);
    }
    assert Path(g, r);
  }

  /** Being reachable from one node is enough for connectedness. */
  lemma HubConnects(g: seq<Node>, root: Id)
    requires forall x :: x in Ids(g) ==> Reaches(g, root, x)
    ensures Connected(g)
  {
    forall a, b | a in Ids(g) && b in Ids(g) ensures Reaches(g, a, b) {
      ReachesBack(g, root, a);
      assert Reaches(g, root, b);
      var p :| Path(g, p) && p[0] == root && p[|p| - 1] == b;
      ReachesJoin(g, a, p);
    }
  }

  /** A set that holds the root and is closed under links holds everything reachable. */
  lemma {:induction false} ClosedHolds(g: seq<Node>, S: set<Id>, p: seq<Id>)
    requires Path(g, p) && p[0] in S
    requires forall a, b :: a in S && Linked(g, a, b) ==> b in S
    ensures p[|p| - 1] in S
    decreases |p|
  {
    if |p| > 1 {
      var init := p[..|p| - 1];
      forall k | 0 < k < |init| ensures Linked(g, init[k - 1], init[k]) {
        assert Linked(g, p[k - 1], p[k]);
      }
      ClosedHolds(g, S, init);
      assert Linked(g, p[|p| - 2], p[|p| - 1]);
    }
  }

  ghost predicate IsNeighbours(g: seq<Node>, adj: map<Id, seq<Id>>) {
    forall a, b :: b in Topo.Lookup(adj, a) <==> Linked(g, a, b)
  }

  /** The links that a dependency list of the node called id contributes. */
  ghost predicate Contributes(id: Id, deps: seq<Id>, a: Id, b: Id) {
    (a == id && b in deps) || (b == id && a in deps)
  }

  ghost predicate Gained(before: map<Id, seq<Id>>, now: map<Id, seq<Id>>, id: Id, deps: seq<Id>) {
    forall a, b :: b in Topo.Lookup(now, a) <==> b in Topo.Lookup(before, a) || Contributes(id, deps, a, b)
  }

  lemma LinkedPrefix(g: seq<Node>, i: nat, a: Id, b: Id)
    requires i < |g|
    ensures Edge(g[..i + 1], a, b) <==> Edge(g[..i], a, b) || (b == g[i].id && a in g[i].deps)
  {
    var p, q := g[..i], g[..i + 1];
    assert q[i] == g[i];
    if Edge(p, a, b) {
      var j :| 0 <= j < |p| && p[j].id == b && a in p[j].deps;
      assert q[j] == p[j];
    }
    if Edge(q, a, b) {
      var j :| 0 <= j < |q| && q[j].id == b && a in q[j].deps;
      if j < i { assert p[j] == q[j]; }
    }
  }

  lemma GainDep(before: map<Id, seq<Id>>, mid: map<Id, seq<Id>>, id: Id, deps: seq<Id>, dep: Id)
    requires Gained(before, mid, id, deps)
    ensures var one := mid[id := Topo.Lookup(mid, id) + [dep]];
            Gained(before, one[dep := Topo.Lookup(one, dep) + [id]], id, deps + [dep])
  {
    var one := mid[id := Topo.Lookup(mid, id) + [dep]];
    var two := one[dep := Topo.Lookup(one, dep) + [id]];
    forall a, b
      ensures b in Topo.Lookup(two, a) <==> b in Topo.Lookup(before, a) || Contributes(id, deps + [dep], a, b)
    {
      assert b in Topo.Lookup(mid, a) <==> b in Topo.Lookup(before, a) || Contributes(id, deps, a, b);
      assert b in Topo.Lookup(one, a) <==> b in Topo.Lookup(mid, a) || (a == id && b == dep);
      assert b in Topo.Lookup(two, a) <==> b in Topo.Lookup(one, a) || (a == dep && b == id);
    }
  }

  method LinkNode(before: map<Id, seq<Id>>, n: Node) returns (adj: map<Id, seq<Id>>)
    ensures Gained(before, adj, n.id, n.deps)
  {
    adj := before;
    for k := 0 to |n.deps|
      invariant Gained(before, adj, n.id, n.deps[..k])
    {
      var dep := n.deps[k];
      assert n.deps[..k + 1] == n.deps[..k] + [dep];
      GainDep(before, adj, n.id, n.deps[..k], dep);
      adj := adj[n.id := Topo.Lookup(adj, n.id) + [dep]];
      adj := adj[dep := Topo.Lookup(adj, dep) + [n.id]];
    }
    assert n.deps[..|n.deps|] == n.deps;
  }

  method BuildNeighbours(g: seq<Node>) returns (adj: map<Id, seq<Id>>)
    ensures IsNeighbours(g, adj)
  {
    adj := map[];
    for i := 0 to |g|
      invariant IsNeighbours(g[..i], adj)
    {
      ghost var before := adj;
      adj := LinkNode(adj, g[i]);
      GainNode(g, i, before, adj);
    }
    assert g[..|g|] == g;
  }

  lemma GainNode(g: seq<Node>, i: nat, before: map<Id, seq<Id>>, now: map<Id, seq<Id>>)
    requires i < |g| && IsNeighbours(g[..i], before) && Gained(before, now, g[i].id, g[i].deps)
    ensures IsNeighbours(g[..i + 1], now)
  {
    var p, q := g[..i], g[..i + 1];
    forall a, b ensures b in Topo.Lookup(now, a) <==> Linked(q, a, b) {
      LinkedPrefix(g, i, a, b);
      LinkedPrefix(g, i, b, a);
      assert b in Topo.Lookup(before, a) <==> Linked(p, a, b);
      assert b in Topo.Lookup(now, a)
        <==> b in Topo.Lookup(before, a) || Contributes(g[i].id, g[i].deps, a, b);
    }
  }

  /** visited holds the root, is reachable from it, and is closed under links except for what is queued. */
  ghost predicate Frontier(g: seq<Node>, root: Id, visited: set<Id>, queue: seq<Id>) {
    && root in visited && visited <= Ids(g)
    && (forall x :: x in queue ==> x in visited)
    && (forall x :: x in visited ==> Reaches(g, root, x))
    && (forall a, b :: a in visited && a !in queue && Linked(g, a, b) ==> b in visited)
  }

  lemma LinkedKnown(g: seq<Node>, a: Id, b: Id)
    requires KnownDeps(g) && Linked(g, a, b)
    ensures a in Ids(g) && b in Ids(g)
  {
  }

  /** One neighbour of cur is looked at: next[..k] are done. */
  ghost predicate Expanding(g: seq<Node>, root: Id, visited0: set<Id>, rest: seq<Id>,
                            visited: set<Id>, queue: seq<Id>, done: seq<Id>) {
    && visited0 <= visited <= Ids(g)
    && |queue| == |rest| + |visited - visited0|
    && (forall x :: x in done ==> x in visited)
    && (forall x :: x in visited ==> Reaches(g, root, x))
    && (forall x :: x in queue ==> x in visited)
    && (forall x :: x in visited - visited0 || x in rest ==> x in queue)
  }

  lemma ExpandStep(g: seq<Node>, root: Id, cur: Id, b: Id, visited0: set<Id>, rest: seq<Id>,
                   visited: set<Id>, queue: seq<Id>, done: seq<Id>)
    requires KnownDeps(g) && Linked(g, cur, b) && cur in visited0
    requires Expanding(g, root, visited0, rest, visited, queue, done) && b !in visited
    ensures Expanding(g, root, visited0, rest, visited + {b}, queue + [b], done + [b])
  {
    LinkedKnown(g, cur, b);
    ReachesStep(g, root, cur, b);
    assert visited + {b} - visited0 == (visited - visited0) + {b};
  }

  lemma Expanded(g: seq<Node>, root: Id, cur: Id, next: seq<Id>, visited0: set<Id>, rest: seq<Id>,
                 visited: set<Id>, queue: seq<Id>)
    requires Frontier(g, root, visited0, [cur] + rest)
    requires Expanding(g, root, visited0, rest, visited, queue, next)
    requires forall b :: b in next <==> Linked(g, cur, b)
    ensures Frontier(g, root, visited, queue)
  {
    forall a, b | a in visited && a !in queue && Linked(g, a, b) ensures b in visited {
      if a != cur {
        assert a !in [cur] + rest;
      }
    }
  }

  /** Marks the unvisited neighbours of cur and queues them. */
  method Expand(g: seq<Node>, root: Id, cur: Id, next: seq<Id>, visited0: set<Id>, rest: seq<Id>)
    returns (visited: set<Id>, queue: seq<Id>)
    requires KnownDeps(g) && Frontier(g, root, visited0, [cur] + rest)
    requires forall b :: b in next <==> Linked(g, cur, b)
    ensures Frontier(g, root, visited, queue)
    ensures visited0 <= visited && |queue| == |rest| + |visited - visited0|
  {
    hide Reaches, Linked, Edge;
    visited, queue := visited0, rest;
    assert cur in [cur] + rest;
    assert forall x :: x in rest ==> x in [cur] + rest;
    assert visited0 - visited0 == {};
    for k := 0 to |next|
      invariant Expanding(g, root, visited0, rest, visited, queue, next[..k])
    {
      var b := next[k];
      assert next[..k + 1] == next[..k] + [b];
      assert b in next;
      if b !in visited {
        ExpandStep(g, root, cur, b, visited0, rest, visited, queue, next[..k]);
        visited, queue := visited + {b}, queue + [b];
      }
    }
    assert next[..|next|] == next;
    Expanded(g, root, cur, next, visited0, rest, visited, queue);
  }

  lemma FrontierStart(g: seq<Node>, root: Id)
    requires root in Ids(g)
    ensures Frontier(g, root, {root}, [root])
  {
    ReachesSelf(g, root);
  }

  lemma FrontierKnown(g: seq<Node>, root: Id, visited: set<Id>, queue: seq<Id>)
    requires Frontier(g, root, visited, queue)
    ensures root in visited && visited <= Ids(g)
    ensures forall x :: x in visited ==> Reaches(g, root, x)
  {
  }

  /** Breadth-first search over links from the first node. */
  method Search(g: seq<Node>, root: Id) returns (visited: set<Id>)
    requires WellFormed(g) && root in Ids(g)
    ensures Frontier(g, root, visited, [])
  {
    hide Reaches, Linked, Edge, Frontier, UniqueIds, KnownDeps;
    var adj := BuildNeighbours(g);
    var queue := [root];
    visited := {root};
    FrontierStart(g, root);
    while queue != []
      invariant Frontier(g, root, visited, queue)
      decreases |Ids(g) - visited| + |queue|
    {
      var cur := queue[0];
      assert queue == [cur] + queue[1..];
      ghost var was := visited;
      FrontierKnown(g, root, visited, queue);
      var next := Topo.Lookup(adj, cur);
      assert forall b :: b in next <==> Linked(g, cur, b);
      visited, queue := Expand(g, root, cur, next, visited, queue[1..]);
      FrontierKnown(g, root, visited, queue);
      assert Ids(g) - was == (Ids(g) - visited) + (visited - was);
    }
  }

  method FirstUnvisited(g: seq<Node>, visited: set<Id>) returns (bad: Option<Id>)
    ensures bad.None? <==> Ids(g) <= visited
    ensures bad.Some? ==> bad.value in Ids(g) && bad.value !in visited
  {
    for i := 0 to |g|
      invariant forall j :: 0 <= j < i ==> g[j].id in visited
    {
      if g[i].id !in visited {
        return Some(g[i].id);
      }
    }
    bad := None;
  }

  lemma TinyConnected(g: seq<Node>)
    requires |g| <= 1
    ensures Connected(g)
  {
    hide Reaches;
    forall a, b | a in Ids(g) && b in Ids(g) ensures Reaches(g, a, b) {
      assert a == b;
      ReachesSelf(g, a);
    }
  }

  /** Names a node the first one cannot reach, if there is one. */
  method CheckConnected(g: seq<Node>) returns (bad: Option<Id>)
    requires WellFormed(g)
    ensures bad.None? <==> Connected(g)
    ensures bad.Some? ==> bad.value in Ids(g) && !Reaches(g, g[0].id, bad.value)
  {
    hide Reaches, Frontier, Edge, Connected, KnownDeps;
    if |g| <= 1 {
      TinyConnected(g);
      return None;
    }
    var root := g[0].id;
    var visited := Search(g, root);
    FrontierKnown(g, root, visited, []);
    IdCount(g);
    Smaller(visited, Ids(g));
    if |visited| != |g| {
      assert !(Ids(g) <= visited) by {
        if Ids(g) <= visited { Smaller(Ids(g), visited); }
      }
      bad := FirstUnvisited(g, visited);
      Unreached(g, root, visited, bad.value);
      NotConnected(g, root, bad.value);
      return;
    }
    HubConnects(g, root);
    bad := None;
  }

  lemma NotConnected(g: seq<Node>, a: Id, b: Id)
    requires a in Ids(g) && b in Ids(g) && !Reaches(g, a, b)
    ensures !Connected(g)
  {
  }

  lemma Unreached(g: seq<Node>, root: Id, visited: set<Id>, x: Id)
    requires Frontier(g, root, visited, []) && x !in visited
    ensures !Reaches(g, root, x)
  {
    forall p | Path(g, p) && p[0] == root ensures p[|p| - 1] != x {
      ClosedHolds(g, visited, p);
    }
  }

  lemma UniquePrefix(g: seq<Node>, i: nat)
    requires i < |g|
    ensures UniqueIds(g[..i + 1]) <==> UniqueIds(g[..i]) && g[i].id !in Ids(g[..i])
  {
    var p, q := g[..i], g[..i + 1];
    assert q == p + [g[i]];
    if UniqueIds(q) {
      forall j, k | 0 <= j < k < |p| ensures p[j].id != p[k].id {
        assert q[j].id != q[k].id;
      }
      forall j | 0 <= j < i ensures p[j].id != g[i].id {
        assert q[j].id != q[i].id;
      }
    }
  }

  method CheckUnique(g: seq<Node>) returns (dup: Option<Id>, seen: set<Id>)
    ensures dup.None? <==> UniqueIds(g)
    ensures dup.None? ==> seen == Ids(g)
    ensures dup.Some? ==> exists i, j :: 0 <= i < j < |g| && g[i].id == g[j].id == dup.value
  {
    seen := {};
    for i := 0 to |g|
      invariant seen == Ids(g[..i]) && UniqueIds(g[..i])
    {
      assert Ids(g[..i + 1]) == Ids(g[..i]) + {g[i].id};
      UniquePrefix(g, i);
      if g[i].id in seen {
        var j :| 0 <= j < i && g[..i][j].id == g[i].id;
        assert g[j].id == g[i].id;
        return Some(g[i].id), seen;
      }
      seen := seen + {g[i].id};
    }
    assert g[..|g|] == g;
    dup := None;
  }

  method CheckKnown(g: seq<Node>, seen: set<Id>) returns (bad: Option<(Id, Id)>)
    requires seen == Ids(g)
    ensures bad.None? <==> KnownDeps(g)
    ensures bad.Some? ==> bad.value.1 !in Ids(g)
                          && exists i :: 0 <= i < |g| && g[i].id == bad.value.0 && bad.value.1 in g[i].deps
  {
    for i := 0 to |g|
      invariant forall j, d :: 0 <= j < i && d in g[j].deps ==> d in seen
    {
      for k := 0 to |g[i].deps|
        invariant forall m :: 0 <= m < k ==> g[i].deps[m] in seen
      {
        if g[i].deps[k] !in seen {
          return Some((g[i].id, g[i].deps[k]));
        }
      }
    }
    bad := None;
  }

  /** Accepts exactly the admissible graphs, and reports the first failed check with its evidence. */
  method ValidateDAG(g: seq<Node>) returns (r: Option<Error>)
    ensures r.None? <==> Admissible(g)
    ensures r.Some? && r.value.DuplicateId? ==> exists i, j :: 0 <= i < j < |g| && g[i].id == g[j].id == r.value.id
    ensures r.Some? && r.value.UnknownDep? ==> UniqueIds(g) && r.value.dep !in Ids(g) && Edge(g, r.value.dep, r.value.node)
    ensures r.Some? && r.value.CycleAt? ==> WellFormed(g) && Cycle.OnCycle(g, r.value.id)
    ensures r.Some? && r.value.Disconnected? ==>
              WellFormed(g) && Acyclic(g) && r.value.id in Ids(g) && !Reaches(g, g[0].id, r.value.id)
  {
    var dup, seen := CheckUnique(g);
    if dup.Some? { return Some(DuplicateId(dup.value)); }
    var unknown := CheckKnown(g, seen);
    if unknown.Some? { return Some(UnknownDep(unknown.value.0, unknown.value.1)); }
    var hit := Cycle.DetectCycle(g);
    if hit.Some? { return Some(CycleAt(hit.value)); }
    var bad := CheckConnected(g);
    if bad.Some? { return Some(Disconnected(bad.value)); }
    r := None;
  }
}
