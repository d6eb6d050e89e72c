/** Levels of an acyclic graph: each node's depth is the length of its longest dependency chain. */
module Depth {
  import opened Graph

  lemma WalkFits(g: seq<Node>, p: seq<Id>)
    requires Acyclic(g) && Walk(g, p)
    ensures |p| <= |Ids(g)| + 1
  {
    hide Acyclic;
    if !NoDup(p) {
      RepeatIsCycle(g, p);
    }
    var tail := p[1..];
    forall x | x in tail ensures x in Ids(g) {
      var k :| 0 <= k < |tail| && tail[k] == x;
      assert Edge(g, p[k], p[k + 1]);
    }
    forall i, j | 0 <= i < j < |tail| ensures tail[i] != tail[j] {
      assert p[i + 1] != p[j + 1];
    }
    NoDupFits(tail, Ids(g));
  }

  lemma {:induction false} ChainFrom(g: seq<Node>, id: Id, p: seq<Id>)
    requires Acyclic(g) && Walk(g, p) && p[|p| - 1] == id
    ensures exists k :: ChainLength(g, id, k)
    decreases |Ids(g)| + 1 - |p|
  {
    hide Acyclic;
    WalkFits(g, p);
    if exists q :: Walk(g, q) && q != [] && q[|q| - 1] == id && |q| > |p| {
      var q :| Walk(g, q) && q != [] && q[|q| - 1] == id && |q| > |p|;
      WalkFits(g, q);
      ChainFrom(g, id, q);
    } else {
      IsLongest(g, id, p);
    }
  }

  lemma IsLongest(g: seq<Node>, id: Id, p: seq<Id>)
    requires Walk(g, p) && p[|p| - 1] == id
    requires !exists q :: Walk(g, q) && q != [] && q[|q| - 1] == id && |q| > |p|
    ensures ChainLength(g, id, |p| - 1)
  {
  }

  /** The number of edges on the longest dependency chain that ends in id. */
  ghost function DepthOf(g: seq<Node>, id: Id): (d: nat)
    requires Acyclic(g)
    ensures ChainLength(g, id, d)
  {
    assert Walk(g, [id]);
    ChainFrom(g, id, [id]);
    var k: nat :| ChainLength(g, id, k);
    k
  }

  /** A dependency lies strictly higher up. */
  lemma DepthGrows(g: seq<Node>, d: Id, id: Id)
    requires Acyclic(g) && Edge(g, d, id)
    ensures DepthOf(g, d) < DepthOf(g, id)
  {
    hide Acyclic, Edge;
    var k := DepthOf(g, d);
    var p :| Walk(g, p) && p[|p| - 1] == d && |p| == k + 1;
    JoinWalks(g, p, [id]);
  }

  /** A node below the top has a dependency exactly one level up. */
  lemma DepthStep(g: seq<Node>, id: Id) returns (d: Id)
    requires Acyclic(g) && DepthOf(g, id) > 0
    ensures Edge(g, d, id) && DepthOf(g, d) == DepthOf(g, id) - 1
  {
    hide Acyclic, Edge;
    var k := DepthOf(g, id);
    var p :| Walk(g, p) && p[|p| - 1] == id && |p| == k + 1;
    d := p[k - 1];
    assert Edge(g, p[k - 1], p[k]);
    SubWalk(g, p, 0, k);
    var q := p[0..k];
    assert Walk(g, q) && q[|q| - 1] == d && |q| == k;
    DepthGrows(g, d, id);
  }

  /** If some node is at least k deep then some node is exactly k deep. */
  lemma {:induction false} LevelReached(g: seq<Node>, id: Id, k: nat) returns (x: Id)
    requires WellFormed(g) && Acyclic(g) && id in Ids(g) && DepthOf(g, id) >= k
    ensures x in Ids(g) && DepthOf(g, x) == k
    decreases DepthOf(g, id)
  {
    hide Acyclic, WellFormed, ChainLength;
    if DepthOf(g, id) == k {
      x := id;
    } else {
      var d := DepthStep(g, id);
      DepInIds(g, d, id);
      x := LevelReached(g, d, k);
    }
  }

  lemma DepInIds(g: seq<Node>, d: Id, id: Id)
    requires WellFormed(g) && Edge(g, d, id)
    ensures d in Ids(g)
  {
  }
}
