/** Backward compensation: completed nodes are rolled back, dependents before their dependencies. */
module Compensation {
  import opened Context
  import opened Graph
  import opened DagState
  import Topo

  /** What the runners offer: which support compensation, which may be retried, and how each attempt ends. */
  datatype Rollback = Rollback(
    supported: set<Id>,
    idempotent: set<Id>,
    maxRetries: int,
    attempt: (Id, nat) -> bool)

  /** Completed nodes that a rollback can act on. */
  ghost function Compensable(rb: Rollback, status: map<Id, Status>, results: map<Id, Payload>): set<Id> {
    set x | x in status && status[x] == Done && x in rb.supported && x in results
  }

  /** The attempts at rolling x back that are made until one succeeds: the first, and if x is idempotent the retries. */
  ghost predicate Allowed(rb: Rollback, x: Id, a: nat) {
    a == 0 || (x in rb.idempotent && a <= rb.maxRetries)
  }

  /** Those that did not fail were rolled back by an attempt they allow; those that failed had no such attempt, or had their
      retries cut short by a cancellation after attempts that all failed. */
  ghost predicate Attempted(rb: Rollback, tried: seq<Id>, failed: set<Id>, cut: set<Id>) {
    && (forall x :: x in tried && x !in failed ==> exists a: nat :: Allowed(rb, x, a) && rb.attempt(x, a))
    && (forall x, a: nat :: x in failed - cut && Allowed(rb, x, a) ==> !rb.attempt(x, a))
    && cut <= failed && (forall x :: x in cut ==> Allowed(rb, x, 1) && !rb.attempt(x, 0))
  }

  /** Every dependent, direct or not, stands strictly before what it depends on. */
  ghost predicate DependentsBefore(g: seq<Node>, tried: seq<Id>) {
    forall p {:trigger Walk(g, p)} :: Walk(g, p) && |p| >= 2 && p[0] in tried && p[|p| - 1] in tried ==>
      PosIn(tried, p[|p| - 1]) < PosIn(tried, p[0])
  }

  /** Picks come in the reverse of a listing. */
  ghost predicate PicksBackward(order: seq<Id>, picks: seq<Id>) {
    && (forall x :: x in picks ==> x in order)
    && (forall i, j :: 0 <= i < j < |picks| && picks[i] in order && picks[j] in order ==>
          PosIn(order, picks[j]) < PosIn(order, picks[i]))
  }

  lemma BackwardIsDependentsFirst(g: seq<Node>, order: seq<Id>, picks: seq<Id>)
    requires TopologicalOrder(g, order) && PicksBackward(order, picks)
    ensures NoDup(picks) && DependentsBefore(g, picks)
  {
    forall p | Walk(g, p) && |p| >= 2 && p[0] in picks && p[|p| - 1] in picks
      ensures PosIn(picks, p[|p| - 1]) < PosIn(picks, p[0])
    {
      WalkClimbs(g, order, p);
      var i, j := PosIn(picks, p[0]), PosIn(picks, p[|p| - 1]);
      assert PosIn(order, picks[i]) < PosIn(order, picks[j]);
    }
  }

  lemma ExtendBackward(order: seq<Id>, k: nat, picks: seq<Id>)
    requires NoDup(order) && k < |order| && PicksBackward(order, picks)
    requires forall x :: x in picks ==> x in order && PosIn(order, x) > k
    ensures PicksBackward(order, picks + [order[k]]) && PosIn(order, order[k]) == k
  {
    assert PosIn(order, order[k]) == k;
  }

  /** The completed nodes in reverse dependency order. */
  method CompletedReverse(order: seq<Id>, status: map<Id, Status>) returns (picks: seq<Id>)
    requires NoDup(order) && forall x :: x in order ==> x in status
    ensures PicksBackward(order, picks)
    ensures forall x :: x in picks <==> x in order && status[x] == Done
  {
    picks := [];
    var k := |order|;
    while k > 0
      invariant 0 <= k <= |order|
      invariant PicksBackward(order, picks)
      invariant forall x :: x in picks ==> x in order && PosIn(order, x) >= k && status[x] == Done
      invariant forall i :: k <= i < |order| && status[order[i]] == Done ==> order[i] in picks
    {
      k := k - 1;
      ExtendBackward(order, k, picks);
      if status[order[k]] == Done {
        picks := picks + [order[k]];
      }
    }
  }

  /** Tries one rollback, again as long as x allows; a cancellation between two attempts cuts the rest. */
  method CompensateNode(rb: Rollback, x: Id, gone: nat -> bool) returns (ok: bool, calls: nat, ghost cut: bool)
    ensures calls > 0 && Allowed(rb, x, calls - 1) && forall a: nat :: a < calls - 1 ==> !rb.attempt(x, a)
    ensures ok <==> rb.attempt(x, calls - 1)
    ensures !ok && !cut ==> !Allowed(rb, x, calls)
    ensures cut ==> !ok && Allowed(rb, x, calls) && CallerLeaves(gone)
  {
    calls, cut := 0, false;
    var max := if x in rb.idempotent && rb.maxRetries > 0 then rb.maxRetries + 1 else 1;
    while calls < max
      invariant calls <= max
      invariant forall a: nat :: a < calls ==> !rb.attempt(x, a)
      invariant !cut
    {
      calls := calls + 1;
      if rb.attempt(x, calls - 1) {
        return true, calls, false;
      }
      var moment: nat := *;
      if calls < max && gone(moment) {
        IsGone(gone, moment);
        return false, calls, true;
      }
    }
    ok := false;
  }

  /** The table of statuses after some rollbacks were tried. */
  ghost function After(status0: map<Id, Status>, tried: seq<Id>, failed: set<Id>): map<Id, Status> {
    map x | x in status0 :: if x in tried && x !in failed then Compensated else status0[x]
  }

  lemma AfterTry(status0: map<Id, Status>, tried: seq<Id>, failed: set<Id>, x: Id, ok: bool)
    requires x in status0 && x !in tried && failed <= Elems(tried)
    ensures var before := After(status0, tried, failed);
            After(status0, tried + [x], if ok then failed else failed + {x}) == if ok then before[x := Compensated] else before
    ensures failed + {x} <= Elems(tried + [x]) && failed <= Elems(tried + [x])
  {
  }

  ghost predicate TriedOf(rb: Rollback, results: map<Id, Payload>, picks: seq<Id>, tried: seq<Id>) {
    forall x :: x in tried <==> x in picks && x in rb.supported && x in results
  }

  /** The loop over the completed nodes. */
  method TryAll(rb: Rollback, gone: nat -> bool, ghost order: seq<Id>, picks: seq<Id>, status0: map<Id, Status>, results: map<Id, Payload>)
    returns (status: map<Id, Status>, tried: seq<Id>, failed: set<Id>, ghost cut: set<Id>)
    requires PicksBackward(order, picks) && forall x :: x in picks ==> x in status0
    ensures TriedOf(rb, results, picks, tried) && PicksBackward(order, tried)
    ensures failed <= Elems(tried) && status == After(status0, tried, failed)
    ensures Attempted(rb, tried, failed, cut) && (cut != {} ==> CallerLeaves(gone))
  {
    hide CallerLeaves, PicksBackward, After, Subsequence, Attempted, Allowed;
    status, tried, failed, cut := status0, [], {}, {};
    TryNone(rb, order, picks, status0);
    for i := 0 to |picks|
      invariant TriedOf(rb, results, picks[..i], tried)
      invariant Subsequence(order, picks, i, tried)
      invariant failed <= Elems(tried) && status == After(status0, tried, failed)
      invariant Attempted(rb, tried, failed, cut) && (cut != {} ==> CallerLeaves(gone))
    {
      var x := picks[i];
      BackwardDistinct(order, picks, i);
      assert picks[..i + 1] == picks[..i] + [x];
      SubsequenceSkip(order, picks, i, tried);
      if x in rb.supported && x in results {
        SubsequenceAdd(order, picks, i, tried);
        var ok, calls;
        ghost var short;
        ok, calls, short := CompensateNode(rb, x, gone);
        AfterTry(status0, tried, failed, x, ok);
        AttemptedOne(rb, tried, failed, cut, x, ok, calls, short);
        cut := if short then cut + {x} else cut;
        tried := tried + [x];
        if ok {
          status := status[x := Compensated];
        } else {
          failed := failed + {x};
        }
      }
    }
    assert picks[..|picks|] == picks;
    SubsequenceIs(order, picks, tried);
  }

  lemma AttemptedOne(rb: Rollback, tried: seq<Id>, failed: set<Id>, cut: set<Id>, x: Id, ok: bool, calls: nat, short: bool)
    requires Attempted(rb, tried, failed, cut) && x !in tried && failed <= Elems(tried)
    requires calls > 0 && Allowed(rb, x, calls - 1) && forall a: nat :: a < calls - 1 ==> !rb.attempt(x, a)
    requires ok <==> rb.attempt(x, calls - 1)
    requires if short then !ok && Allowed(rb, x, calls) else ok || !Allowed(rb, x, calls)
    ensures Attempted(rb, tried + [x], if ok then failed else failed + {x}, if short then cut + {x} else cut)
  {
    assert x !in Elems(tried);
    if ok {
      assert Allowed(rb, x, calls - 1) && rb.attempt(x, calls - 1);
    } else {
      forall a: nat | !short && Allowed(rb, x, a) ensures !rb.attempt(x, a) {
        assert a < calls || a == calls - 1;
      }
    }
  }

  lemma TryNone(rb: Rollback, order: seq<Id>, picks: seq<Id>, status0: map<Id, Status>)
    ensures Subsequence(order, picks, 0, []) && After(status0, [], {}) == status0 && Attempted(rb, [], {}, {})
  {
  }

  /** Tries to roll back exactly the completed nodes that support it, each once, each only after everything
      that depends on it; failures do not stop the rest, and only successes change a status. */
  method BackwardCompensation(g: seq<Node>, rb: Rollback, gone: nat -> bool, status0: map<Id, Status>, results: map<Id, Payload>)
    returns (status: map<Id, Status>, tried: seq<Id>, failed: set<Id>, ghost cut: set<Id>)
    requires WellFormed(g) && Acyclic(g) && status0.Keys == Ids(g)
    ensures Elems(tried) == Compensable(rb, status0, results) && NoDup(tried) && DependentsBefore(g, tried)
    ensures failed <= Elems(tried) && Attempted(rb, tried, failed, cut) && (cut != {} ==> CallerLeaves(gone))
    ensures status == After(status0, tried, failed)
  {
    hide Attempted, Acyclic, KnownDeps, UniqueIds, DepsFirst, DependentsBefore, Walk, Topo.KahnOrder, After, PicksBackward;
    var order := Topo.TopologicalSort(g);
    Topo.KahnDecidesAcyclic(g, order);
    forall x ensures x in order <==> x in status0 {
      assert x in Elems(order) <==> x in order;
    }
    var picks := CompletedReverse(order, status0);
    status, tried, failed, cut := TryAll(rb, gone, order, picks, status0, results);
    assert Elems(tried) == Compensable(rb, status0, results);
    BackwardIsDependentsFirst(g, order, tried);
  }

  /** tried is drawn in order from the first i picks. */
  ghost predicate Subsequence(order: seq<Id>, picks: seq<Id>, i: nat, tried: seq<Id>) {
    && PicksBackward(order, tried)
    && i <= |picks|
    && (forall x :: x in tried ==> x in picks[..i])
  }

  lemma BackwardDistinct(order: seq<Id>, picks: seq<Id>, i: nat)
    requires PicksBackward(order, picks) && i < |picks|
    ensures picks[i] !in picks[..i]
  {
    forall j | 0 <= j < i ensures picks[j] != picks[i] {
      assert picks[j] in order && picks[i] in order;
    }
  }

  lemma SubsequenceSkip(order: seq<Id>, picks: seq<Id>, i: nat, tried: seq<Id>)
    requires Subsequence(order, picks, i, tried) && i < |picks|
    ensures Subsequence(order, picks, i + 1, tried)
  {
    assert picks[..i + 1] == picks[..i] + [picks[i]];
  }

  lemma SubsequenceIs(order: seq<Id>, picks: seq<Id>, tried: seq<Id>)
    requires Subsequence(order, picks, |picks|, tried)
    ensures PicksBackward(order, tried)
  {
  }

  lemma SubsequenceAdd(order: seq<Id>, picks: seq<Id>, i: nat, tried: seq<Id>)
    requires PicksBackward(order, picks) && Subsequence(order, picks, i, tried) && i < |picks|
    ensures Subsequence(order, picks, i + 1, tried + [picks[i]])
  {
    var t := tried + [picks[i]];
    forall a, b | 0 <= a < b < |t| && t[a] in order && t[b] in order ensures PosIn(order, t[b]) < PosIn(order, t[a]) {
      if b == |tried| {
        assert tried[a] in picks[..i];
        var j :| 0 <= j < i && picks[j] == tried[a];
      }
    }
  }
}
