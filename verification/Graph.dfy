/** Dependency graphs as declared by the caller: a list of nodes, each naming the nodes it depends on.
    A dependency may be listed more than once; every occurrence counts. */
module Graph {
  /** Node ids are opaque here; only the workflow scheduler looks at the name, to sort. */
  datatype Id = Id(name: string)

  datatype Node = Node(id: Id, deps: seq<Id>)

  function Ids(g: seq<Node>): set<Id> {
    set i | 0 <= i < |g| :: g[i].id
  }

  predicate UniqueIds(g: seq<Node>) {
    forall i, j :: 0 <= i < j < |g| ==> g[i].id != g[j].id
  }

  predicate KnownDeps(g: seq<Node>) {
    forall i, d :: 0 <= i < |g| && d in g[i].deps ==> d in Ids(g)
  }

  predicate WellFormed(g: seq<Node>) {
    UniqueIds(g) && KnownDeps(g)
  }

  /** b depends on a. */
  ghost predicate Edge(g: seq<Node>, a: Id, b: Id) {
    exists i :: 0 <= i < |g| && g[i].id == b && a in g[i].deps
  }

  /** A dependency chain: every element depends on the one before it. */
  ghost predicate Walk(g: seq<Node>, p: seq<Id>) {
    |p| > 0 && forall k :: 0 < k < |p| ==> Edge(g, p[k - 1], p[k])
  }

  ghost predicate Cycle(g: seq<Node>, p: seq<Id>) {
    Walk(g, p) && |p| >= 2 && p[0] == p[|p| - 1]
  }

  ghost predicate Acyclic(g: seq<Node>) {
    forall p :: !Cycle(g, p)
  }

  /** The node declared under an id. */
  ghost function NodeOf(g: seq<Node>, id: Id): Node
    requires id in Ids(g)
    ensures NodeOf(g, id).id == id && NodeOf(g, id) in g
  {
    var i :| 0 <= i < |g| && g[i].id == id;
    g[i]
  }

  ghost function DepsOf(g: seq<Node>, id: Id): seq<Id>
    requires id in Ids(g)
  {
    NodeOf(g, id).deps
  }

  lemma NodeAt(g: seq<Node>, i: nat)
    requires UniqueIds(g) && i < |g|
    ensures g[i].id in Ids(g) && NodeOf(g, g[i].id) == g[i] && DepsOf(g, g[i].id) == g[i].deps
  {
    var j :| 0 <= j < |g| && g[j].id == g[i].id && NodeOf(g, g[i].id) == g[j];
    assert j == i;
  }

  lemma EdgeIsDep(g: seq<Node>, a: Id, b: Id)
    requires UniqueIds(g)
    ensures Edge(g, a, b) <==> b in Ids(g) && a in DepsOf(g, b)
  {
    forall i | 0 <= i < |g| && g[i].id == b
      ensures DepsOf(g, b) == g[i].deps
    {
      NodeAt(g, i);
    }
  }

  /** With distinct ids there are as many ids as nodes. */
  lemma IdCount(g: seq<Node>)
    requires UniqueIds(g)
    ensures |Ids(g)| == |g|
  {
    if g == [] {
      assert Ids(g) == {};
    } else {
      var last := |g| - 1;
      IdCount(g[..last]);
      assert g[last].id !in Ids(g[..last]);
      assert Ids(g) == Ids(g[..last]) + {g[last].id};
    }
  }

  ghost predicate NoDup<T(!new)>(s: seq<T>) {
    forall i, j :: 0 <= i < j < |s| ==> s[i] != s[j]
  }

  ghost function Elems<T(!new)>(s: seq<T>): set<T> {
    set x | x in s
  }

  lemma {:induction false} NoDupFits<T(!new)>(s: seq<T>, S: set<T>)
    requires NoDup(s) && forall x :: x in s ==> x in S
    ensures |s| <= |S|
    decreases |s|
  {
    if s != [] {
      forall x | x in s[1..] ensures x in S - {s[0]} {
        var k :| 0 <= k < |s[1..]| && s[1..][k] == x;
        assert s[k + 1] == x;
      }
      NoDupFits(s[1..], S - {s[0]});
    }
  }

  lemma NoDupSize<T(!new)>(s: seq<T>)
    requires NoDup(s)
    ensures |Elems(s)| == |s|
    decreases |s|
  {
    if s == [] {
      assert Elems(s) == {};
    } else {
      var last := |s| - 1;
      assert Elems(s) == Elems(s[..last]) + {s[last]};
      NoDupSize(s[..last]);
    }
  }

  lemma Smaller<T>(a: set<T>, b: set<T>)
    requires a <= b
    ensures |a| <= |b|
    ensures |a| == |b| ==> a == b
  {
    assert b == a + (b - a);
  }

  ghost predicate HasPred(g: seq<Node>, S: set<Id>, x: Id) {
    exists a :: a in S && Edge(g, a, x)
  }

  ghost predicate NoSource(g: seq<Node>, S: set<Id>) {
    forall x {:trigger HasPred(g, S, x)} :: x in S ==> HasPred(g, S, x)
  }

  /** A backward walk of any length inside a set in which every id has a predecessor. */
  lemma {:induction false} BackWalk(g: seq<Node>, S: set<Id>, n: nat) returns (p: seq<Id>)
    requires S != {} && n > 0
    requires NoSource(g, S)
    ensures Walk(g, p) && |p| == n && forall x :: x in p ==> x in S
    decreases n
  {
    if n == 1 {
      var x :| x in S;
      p := [x];
    } else {
      var q := BackWalk(g, S, n - 1);
      assert q[0] in S;
      assert HasPred(g, S, q[0]);
      var a :| a in S && Edge(g, a, q[0]);
      JoinWalks(g, [a], q);
      p := [a] + q;
    }
  }

  lemma SubWalk(g: seq<Node>, p: seq<Id>, i: nat, j: nat)
    requires Walk(g, p) && i < j <= |p|
    ensures Walk(g, p[i..j])
  {
    var q := p[i..j];
    forall k | 0 < k < |q| ensures Edge(g, q[k - 1], q[k]) {
      assert Edge(g, p[i + k - 1], p[i + k]);
    }
  }

  lemma JoinWalks(g: seq<Node>, p: seq<Id>, q: seq<Id>)
    requires Walk(g, p) && Walk(g, q) && Edge(g, p[|p| - 1], q[0])
    ensures Walk(g, p + q)
  {
    var r := p + q;
    forall k | 0 < k < |r| ensures Edge(g, r[k - 1], r[k]) {
      if k < |p| {
        assert Edge(g, p[k - 1], p[k]);
      } else if k > |p| {
        assert Edge(g, q[k - |p| - 1], q[k - |p|]);
      }
    }
  }

  /** A walk that visits some id twice contains a cycle. */
  lemma RepeatIsCycle(g: seq<Node>, p: seq<Id>)
    requires Walk(g, p) && !NoDup(p)
    ensures !Acyclic(g)
  {
    var i, j :| 0 <= i < j < |p| && p[i] == p[j];
    SubWalk(g, p, i, j + 1);
    assert Cycle(g, p[i..j + 1]);
  }

  /** In an acyclic graph every nonempty set of ids has one that depends on no other of the set. */
  lemma AcyclicHasSource(g: seq<Node>, S: set<Id>)
    requires Acyclic(g) && S != {}
    ensures exists x :: x in S && !HasPred(g, S, x)
  {
    if NoSource(g, S) {
      var p := BackWalk(g, S, |S| + 1);
      if NoDup(p) {
        NoDupFits(p, S);
      }
      RepeatIsCycle(g, p);
    }
  }

  /** Every dependency of an element stands strictly before it. */
  ghost predicate DepsFirst(g: seq<Node>, order: seq<Id>) {
    forall j, a :: 0 <= j < |order| && Edge(g, a, order[j]) ==> a in order[..j]
  }

  /** A duplicate-free listing of all ids with every dependency before its dependents. */
  ghost predicate TopologicalOrder(g: seq<Node>, order: seq<Id>) {
    NoDup(order) && Elems(order) == Ids(g) && DepsFirst(g, order)
  }

  ghost function PosIn<T(!new)>(s: seq<T>, x: T): nat
    requires x in s
    ensures PosIn(s, x) < |s| && s[PosIn(s, x)] == x
  {
    var i :| 0 <= i < |s| && s[i] == x;
    i
  }

  lemma {:induction false} WalkClimbs(g: seq<Node>, order: seq<Id>, p: seq<Id>)
    requires NoDup(order) && DepsFirst(g, order) && Walk(g, p) && p[|p| - 1] in order
    ensures p[0] in order
    ensures PosIn(order, p[0]) + |p| - 1 <= PosIn(order, p[|p| - 1])
    decreases |p|
  {
    if |p| > 1 {
      var last := |p| - 1;
      assert Edge(g, p[last - 1], p[last]);
      var at := PosIn(order, p[last]);
      assert p[last - 1] in order[..at];
      var i :| 0 <= i < at && order[i] == p[last - 1];
      assert PosIn(order, p[last - 1]) == i;
      SubWalk(g, p, 0, last);
      WalkClimbs(g, order, p[..last]);
    }
  }

  /** A topological order rules out every cycle. */
  lemma OrderedIsAcyclic(g: seq<Node>, order: seq<Id>)
    requires TopologicalOrder(g, order)
    ensures Acyclic(g)
  {
    forall p ensures !Cycle(g, p) {
      if Cycle(g, p) {
        var last := |p| - 1;
        assert Edge(g, p[last - 1], p[last]);
        assert p[last] in Elems(order);
        WalkClimbs(g, order, p);
      }
    }
  }

  /** k edges on the longest dependency chain that ends in id. */
  ghost predicate ChainLength(g: seq<Node>, id: Id, k: nat) {
    && (exists p :: Walk(g, p) && p[|p| - 1] == id && |p| == k + 1)
    && (forall p :: Walk(g, p) && p[|p| - 1] == id ==> |p| <= k + 1)
  }

  /** Occurrences of dependencies that are not in done. */
  function Remaining(deps: seq<Id>, done: set<Id>): nat {
    if deps == [] then 0
    else Remaining(deps[..|deps| - 1], done) + if deps[|deps| - 1] in done then 0 else 1
  }

  lemma {:induction false} RemainingAdd(deps: seq<Id>, done: set<Id>, x: Id)
    requires x !in done
    ensures Remaining(deps, done) == Remaining(deps, done + {x}) + multiset(deps)[x]
  {
    if deps != [] {
      var last := |deps| - 1;
      assert deps == deps[..last] + [deps[last]];
      RemainingAdd(deps[..last], done, x);
    }
  }

  lemma {:induction false} RemainingZero(deps: seq<Id>, done: set<Id>)
    ensures Remaining(deps, done) == 0 <==> forall d :: d in deps ==> d in done
  {
    if deps != [] {
      var last := |deps| - 1;
      assert deps == deps[..last] + [deps[last]];
      RemainingZero(deps[..last], done);
    }
  }

  lemma {:induction false} RemainingNone(deps: seq<Id>)
    ensures Remaining(deps, {}) == |deps|
  {
    if deps != [] {
      RemainingNone(deps[..|deps| - 1]);
    }
  }
}
