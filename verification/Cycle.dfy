/** Three-colour depth-first search over the dependents of each node. */
module Cycle {
  import opened Graph
  import opened Wrappers
  import Topo

  datatype Colour = White | Gray | Black

  /** Every dependent of an element stands strictly before it. */
  ghost predicate DependentsFirst(g: seq<Node>, finished: seq<Id>) {
    forall j, b :: 0 <= j < |finished| && Edge(g, finished[j], b) ==> b in finished[..j]
  }

  ghost predicate OnCycle(g: seq<Node>, id: Id) {
    exists p :: Cycle(g, p) && p[0] == id
  }

  ghost function Whites(colour: map<Id, Colour>): set<Id> {
    set x | x in colour && colour[x] == White
  }

  /** Gray ids form the chain being explored; black ids are closed under dependents and ordered. */
  ghost predicate SearchState(g: seq<Node>, colour: map<Id, Colour>, stack: seq<Id>, finished: seq<Id>) {
    && colour.Keys == Ids(g)
    && (forall x :: x in colour && colour[x] == Gray <==> x in stack)
    && (forall x :: x in colour && colour[x] == Black <==> x in finished)
    && NoDup(finished)
    && DependentsFirst(g, finished)
    && (stack == [] || Walk(g, stack))
  }

  function Reverse(s: seq<Id>): seq<Id> {
    seq(|s|, i requires 0 <= i < |s| => s[|s| - 1 - i])
  }

  lemma ReverseIn(s: seq<Id>, x: Id)
    ensures x in Reverse(s) <==> x in s
  {
    if x in s {
      var i :| 0 <= i < |s| && s[i] == x;
      assert Reverse(s)[|s| - 1 - i] == x;
    }
  }

  /** Read backwards, the finishing sequence puts dependencies first. */
  lemma FinishedOrders(g: seq<Node>, finished: seq<Id>)
    requires KnownDeps(g) && NoDup(finished) && DependentsFirst(g, finished) && Elems(finished) == Ids(g)
    ensures TopologicalOrder(g, Reverse(finished))
  {
    var order := Reverse(finished);
    forall x ensures x in order <==> x in finished { ReverseIn(finished, x); }
    assert Elems(order) == Ids(g);
    forall j, a | 0 <= j < |order| && Edge(g, a, order[j]) ensures a in order[..j] {
      assert a in Elems(finished);
      var k :| 0 <= k < |finished| && finished[k] == a;
      assert order[j] in finished[..k];
      var m :| 0 <= m < k && finished[m] == order[j];
      assert m == |finished| - 1 - j;
      assert order[..j][|finished| - 1 - k] == a;
    }
  }

  lemma Close(g: seq<Node>, colour: map<Id, Colour>, stack: seq<Id>, finished: seq<Id>, id: Id)
    requires SearchState(g, colour, stack + [id], finished) && id !in stack && id in Ids(g)
    requires forall b :: Edge(g, id, b) ==> b in finished
    ensures SearchState(g, colour[id := Black], stack, finished + [id])
    ensures Whites(colour[id := Black]) == Whites(colour)
  {
    var finished' := finished + [id];
    assert (stack + [id])[|stack|] == id;
    assert colour[id] == Gray;
    forall j, b | 0 <= j < |finished'| && Edge(g, finished'[j], b) ensures b in finished'[..j] {
      if j < |finished| {
        assert finished'[..j] == finished[..j];
      } else {
        assert finished'[..j] == finished;
      }
    }
    if stack != [] {
      SubWalk(g, stack + [id], 0, |stack|);
      assert (stack + [id])[0..|stack|] == stack;
    }
  }

  lemma Open(g: seq<Node>, colour: map<Id, Colour>, stack: seq<Id>, finished: seq<Id>, id: Id)
    requires SearchState(g, colour, stack, finished) && id in colour && colour[id] == White
    requires stack == [] || Edge(g, stack[|stack| - 1], id)
    ensures id !in stack
    ensures SearchState(g, colour[id := Gray], stack + [id], finished)
    ensures |Whites(colour[id := Gray])| < |Whites(colour)|
  {
    if stack != [] {
      JoinWalks(g, stack, [id]);
    }
    assert Whites(colour[id := Gray]) == Whites(colour) - {id};
  }

  lemma BackEdge(g: seq<Node>, stack: seq<Id>, next: Id)
    requires Walk(g, stack) && next in stack && Edge(g, stack[|stack| - 1], next)
    ensures OnCycle(g, next)
  {
    var i :| 0 <= i < |stack| && stack[i] == next;
    SubWalk(g, stack, i, |stack|);
    var p := stack[i..] + [next];
    assert stack[i..|stack|] == stack[i..];
    JoinWalks(g, stack[i..], [next]);
    assert Cycle(g, p);
  }

  class Detector {
    const g: seq<Node>
    const adj: map<Id, seq<Id>>
    var colour: map<Id, Colour>
    ghost var finished: seq<Id>

    ghost predicate Valid(stack: seq<Id>)
      reads this
    {
      && WellFormed(g)
      && Topo.IsDownstream(g, adj)
      && SearchState(g, colour, stack, finished)
    }

    constructor (nodes: seq<Node>)
      requires WellFormed(nodes)
      ensures g == nodes && Valid([]) && finished == []
    {
      var downstream, _ := Topo.BuildMaps(nodes);
      g := nodes;
      adj := downstream;
      colour := map i | i in Ids(nodes) :: White;
      finished := [];
    }

    /** Explores everything that depends on id. A hit names a node met again while still open. */
    method Visit(id: Id, ghost stack: seq<Id>) returns (hit: Option<Id>)
      requires Valid(stack) && id in colour && colour[id] == White
      requires stack == [] || Edge(g, stack[|stack| - 1], id)
      modifies this
      ensures hit.Some? ==> OnCycle(g, hit.value)
      ensures hit.None? ==> Valid(stack) && old(finished) <= finished && id in finished
      ensures hit.None? ==> |Whites(colour)| < |Whites(old(colour))|
      decreases |Whites(colour)|, 0
    {
      hide OnCycle, Whites, DependentsFirst, NoDup, Walk, Topo.Downstream;
      Open(g, colour, stack, finished, id);
      colour := colour[id := Gray];
      hit := Explore(id, Topo.Lookup(adj, id), stack);
      if hit.None? {
        Close(g, colour, stack, finished, id);
        colour := colour[id := Black];
        finished := finished + [id];
      }
    }

    /** The loop of Visit over the dependents of the id just opened. */
    method Explore(id: Id, ds: seq<Id>, ghost stack: seq<Id>) returns (hit: Option<Id>)
      requires Valid(stack + [id]) && id in Ids(g) && ds == Topo.Downstream(g, id)
      modifies this
      ensures hit.Some? ==> OnCycle(g, hit.value)
      ensures hit.None? ==> Valid(stack + [id]) && old(finished) <= finished
      ensures hit.None? ==> forall b :: Edge(g, id, b) ==> b in finished
      ensures hit.None? ==> |Whites(colour)| <= |Whites(old(colour))|
      decreases |Whites(colour)|, 1
    {
      hide OnCycle, Whites, DependentsFirst, NoDup, Walk, Topo.Downstream;
      ghost var path := stack + [id];
      forall b ensures Edge(g, id, b) <==> b in ds {
        Topo.DownstreamIsEdge(g, id, b);
      }
      for k := 0 to |ds|
        invariant Valid(path)
        invariant old(finished) <= finished
        invariant forall j :: 0 <= j < k ==> ds[j] in finished
        invariant |Whites(colour)| <= |Whites(old(colour))|
      {
        var next := ds[k];
        assert Edge(g, id, next);
        match colour[next]
        case Gray =>
          BackEdge(g, path, next);
          return Some(next);
        case White =>
          hit := Visit(next, path);
          if hit.Some? { return; }
        case Black =>
      }
      hit := None;
    }
  }

  lemma AllFinished(g: seq<Node>, colour: map<Id, Colour>, finished: seq<Id>)
    requires WellFormed(g) && SearchState(g, colour, [], finished) && forall j :: 0 <= j < |g| ==> g[j].id in finished
    ensures Acyclic(g)
  {
    hide UniqueIds, KnownDeps, Edge, DependentsFirst, Acyclic, NoDup;
    assert Elems(finished) == Ids(g);
    FinishedOrders(g, finished);
    OrderedIsAcyclic(g, Reverse(finished));
  }

  lemma HasColour(g: seq<Node>, colour: map<Id, Colour>, finished: seq<Id>, i: nat)
    requires SearchState(g, colour, [], finished) && i < |g|
    ensures g[i].id in colour && (colour[g[i].id] == White || g[i].id in finished)
  {
    hide Edge, DependentsFirst, NoDup;
  }

  lemma OnCycleIsCyclic(g: seq<Node>, id: Id)
    requires OnCycle(g, id)
    ensures !Acyclic(g)
  {
  }

  /** Reports a node on a cycle if there is one, and nothing exactly when the graph is acyclic. */
  method DetectCycle(g: seq<Node>) returns (hit: Option<Id>)
    requires WellFormed(g)
    ensures hit.None? <==> Acyclic(g)
    ensures hit.Some? ==> OnCycle(g, hit.value)
  {
    hide WellFormed, SearchState, Topo.IsDownstream, Edge, OnCycle, Acyclic;
    var d := new Detector(g);
    for i := 0 to |g|
      invariant d.g == g && d.Valid([])
      invariant forall j :: 0 <= j < i ==> g[j].id in d.finished
    {
      HasColour(g, d.colour, d.finished, i);
      if d.colour[g[i].id] == White {
        hit := d.Visit(g[i].id, []);
        if hit.Some? {
          OnCycleIsCyclic(g, hit.value);
          return;
        }
      }
    }
    AllFinished(g, d.colour, d.finished);
    hit := None;
  }
}
