/** Two history compressors: the most recent messages that fit, and the most important ones that fit. */
module Compressors {
  import opened Graph

  /** Tokens of a message list. */
  function Sum<M>(messages: seq<M>, est: M -> nat): nat {
    if messages == [] then 0 else est(messages[0]) + Sum(messages[1..], est)
  }

  lemma {:induction false} SumGrows<M>(messages: seq<M>, est: M -> nat, j: nat, k: nat)
    requires j <= k <= |messages|
    ensures Sum(messages[k..], est) <= Sum(messages[j..], est)
    decreases k - j
  {
    if j < k {
      SumGrows(messages, est, j + 1, k);
      assert messages[j..][1..] == messages[j + 1..];
    }
  }

  // ---- most recent

  /** Keeps the longest suffix within the budget, or the last message alone if even that overflows. */
  method CompressRecent<M>(messages: seq<M>, est: M -> nat, maxTokens: int) returns (r: seq<M>)
    ensures messages == [] || maxTokens <= 0 ==> r == messages
    ensures messages != [] && maxTokens > 0 ==> exists k ::
              && 0 <= k < |messages| && r == messages[k..]
              && (Sum(messages[k..], est) <= maxTokens || k == |messages| - 1)
              && forall j :: 0 <= j < k ==> Sum(messages[j..], est) > maxTokens
  {
    if |messages| == 0 || maxTokens <= 0 { return messages; }
    var total, start, i := 0, |messages|, |messages|;
    while i > 0
      invariant 0 <= i == start <= |messages|
      invariant total == Sum(messages[start..], est) <= maxTokens
      decreases i
    {
      i := i - 1;
      assert messages[i..][1..] == messages[i + 1..];
      var tokens := est(messages[i]);
      if total + tokens > maxTokens {
        break;
      }
      total, start := total + tokens, i;
    }
    forall j | 0 <= j < start ensures Sum(messages[j..], est) > maxTokens {
      SumGrows(messages, est, j, start - 1);
      assert messages[start - 1..][1..] == messages[start..];
    }
    if start >= |messages| {
      start := |messages| - 1;
    }
    r := messages[start..];
  }

  // ---- most important

  function At(scores: seq<int>, i: nat): int {
    if i < |scores| then scores[i] else 0
  }

  /** i ranks above j: by score, and among equals by position. */
  predicate Above(scores: seq<int>, i: nat, j: nat) {
    At(scores, i) > At(scores, j) || (At(scores, i) == At(scores, j) && i < j)
  }

  /** Stable insertion of the next position by descending score. */
  function Insert(scores: seq<int>, order: seq<nat>, x: nat): seq<nat> {
    if order == [] || At(scores, x) > At(scores, order[0]) then [x] + order
    else [order[0]] + Insert(scores, order[1..], x)
  }

  /** The positions below n, by descending score. */
  function Ranked(scores: seq<int>, n: nat): seq<nat> {
    if n == 0 then [] else Insert(scores, Ranked(scores, n - 1), n - 1)
  }

  ghost predicate Descends(scores: seq<int>, order: seq<nat>) {
    forall i, j :: 0 <= i < j < |order| ==> Above(scores, order[i], order[j])
  }

  ghost predicate AllBelow(order: seq<nat>, x: nat) {
    forall k :: 0 <= k < |order| ==> order[k] < x
  }

  lemma {:induction false} InsertHolds(scores: seq<int>, order: seq<nat>, x: nat, y: nat)
    ensures y in Insert(scores, order, x) <==> y in order || y == x
    decreases |order|
  {
    if order != [] && At(scores, x) <= At(scores, order[0]) {
      InsertHolds(scores, order[1..], x, y);
      assert order == [order[0]] + order[1..];
    }
  }

  lemma {:induction false} InsertKeeps(scores: seq<int>, order: seq<nat>, x: nat)
    requires Descends(scores, order) && AllBelow(order, x)
    ensures Descends(scores, Insert(scores, order, x))
    decreases |order|
  {
    hide At;
    var r := Insert(scores, order, x);
    if order == [] {
    } else if At(scores, x) > At(scores, order[0]) {
      forall i, j | 0 <= i < j < |r| ensures Above(scores, r[i], r[j]) {
        if i == 0 {
          assert j > 1 ==> Above(scores, order[0], order[j - 1]);
        } else {
          assert Above(scores, order[i - 1], order[j - 1]);
        }
      }
    } else {
      var rest := order[1..];
      forall i, j | 0 <= i < j < |rest| ensures Above(scores, rest[i], rest[j]) {
        assert Above(scores, order[i + 1], order[j + 1]);
      }
      InsertKeeps(scores, rest, x);
      var tail := Insert(scores, rest, x);
      forall i, j | 0 <= i < j < |r| ensures Above(scores, r[i], r[j]) {
        if i == 0 {
          InsertHolds(scores, rest, x, tail[j - 1]);
          assert tail[j - 1] in tail;
          if tail[j - 1] != x {
            var k :| 0 <= k < |rest| && rest[k] == tail[j - 1];
            assert Above(scores, order[0], order[k + 1]);
          }
        } else {
          assert Above(scores, tail[i - 1], tail[j - 1]);
        }
      }
    }
  }

  lemma {:induction false} RankedHolds(scores: seq<int>, n: nat, x: nat)
    ensures x in Ranked(scores, n) <==> x < n
  {
    if n > 0 {
      RankedHolds(scores, n - 1, x);
      InsertHolds(scores, Ranked(scores, n - 1), n - 1, x);
    }
  }

  lemma {:induction false} RankedDescends(scores: seq<int>, n: nat)
    ensures Descends(scores, Ranked(scores, n))
  {
    if n > 0 {
      RankedDescends(scores, n - 1);
      var before := Ranked(scores, n - 1);
      forall k | 0 <= k < |before| ensures before[k] < n - 1 {
        RankedHolds(scores, n - 1, before[k]);
      }
      InsertKeeps(scores, before, n - 1);
    }
  }

  /** Tokens of the kept positions. */
  ghost function Weight(weights: seq<nat>, kept: set<nat>): nat {
    if weights == [] then 0
    else Weight(weights[..|weights| - 1], kept) + if |weights| - 1 in kept then weights[|weights| - 1] else 0
  }

  lemma {:induction false} WeightAdd(weights: seq<nat>, kept: set<nat>, i: nat)
    requires i !in kept
    ensures Weight(weights, kept + {i}) == Weight(weights, kept) + if i < |weights| then weights[i] else 0
  {
    if weights != [] {
      WeightAdd(weights[..|weights| - 1], kept, i);
    }
  }

  lemma {:induction false} WeightNone(weights: seq<nat>)
    ensures Weight(weights, {}) == 0
  {
    if weights != [] {
      WeightNone(weights[..|weights| - 1]);
    }
  }

  /** The messages at the kept positions, in their original order. */
  function Pick<M>(messages: seq<M>, kept: set<nat>): seq<M> {
    if messages == [] then []
    else Pick(messages[..|messages| - 1], kept) + if |messages| - 1 in kept then [messages[|messages| - 1]] else []
  }

  /** The kept positions with a higher score than i, or the same and further ahead. */
  ghost function KeptAbove(scores: seq<int>, kept: set<nat>, i: nat): set<nat> {
    set j | j in kept && (At(scores, j) > At(scores, i) || (At(scores, j) == At(scores, i) && j < i))
  }

  /** i is kept exactly when it is the best of all, or still fits beside the kept ones ranked above it. */
  ghost predicate Chosen(scores: seq<int>, weights: seq<nat>, maxTokens: int, kept: set<nat>, i: nat) {
    i in kept <==> KeptAbove(scores, kept, i) == {} || Weight(weights, KeptAbove(scores, kept, i)) + At(weights, i) <= maxTokens
  }

  /** What the choice comes to: the top is in, the rest fits with it or stays out, and nothing left out would still fit. */
  ghost predicate Sound(scores: seq<int>, weights: seq<nat>, maxTokens: int, kept: set<nat>) {
    && (forall i :: i in kept ==> i < |weights|)
    && (exists top: nat ::
         && top in kept
         && (forall i: nat :: i < |weights| && i != top ==>
               At(scores, i) < At(scores, top) || (At(scores, i) == At(scores, top) && top < i))
         && (Weight(weights, kept) <= maxTokens || kept == {top}))
    && (forall i: nat :: i < |weights| && i !in kept ==> Weight(weights, kept) + weights[i] > maxTokens)
  }

  ghost predicate Selection(order: seq<nat>, weights: seq<nat>, maxTokens: int, n: nat, kept: set<nat>, total: nat) {
    && n <= |order|
    && total == Weight(weights, kept)
    && kept <= Elems(order[..n])
    && (n > 0 ==> order[0] in kept)
    && (total <= maxTokens || (n > 0 && kept == {order[0]}))
    && (forall k :: 0 <= k < n && order[k] !in kept ==> total + At(weights, order[k]) > maxTokens)
  }

  lemma Skip(order: seq<nat>, weights: seq<nat>, maxTokens: int, n: nat, kept: set<nat>, total: nat)
    requires Selection(order, weights, maxTokens, n, kept, total) && n < |order| && kept != {}
    requires total + At(weights, order[n]) > maxTokens
    ensures Selection(order, weights, maxTokens, n + 1, kept, total)
  {
    hide Weight;
    assert order[..n + 1] == order[..n] + [order[n]];
  }

  lemma Keep(order: seq<nat>, weights: seq<nat>, maxTokens: int, n: nat, kept: set<nat>, total: nat)
    requires Selection(order, weights, maxTokens, n, kept, total) && n < |order| && NoDup(order)
    requires forall k :: 0 <= k < |order| ==> order[k] < |weights|
    requires n == 0 || total + At(weights, order[n]) <= maxTokens
    ensures Selection(order, weights, maxTokens, n + 1, kept + {order[n]}, total + At(weights, order[n]))
  {
    assert order[..n + 1] == order[..n] + [order[n]];
    assert order[n] !in order[..n];
    WeightAdd(weights, kept, order[n]);
    hide Weight;
    var more := kept + {order[n]};
    forall k | 0 <= k < n + 1 && order[k] !in more ensures total + At(weights, order[n]) + At(weights, order[k]) > maxTokens {
      assert order[k] !in kept;
    }
  }

  ghost predicate GreedyTo(order: seq<nat>, weights: seq<nat>, maxTokens: int, n: nat, kept: set<nat>) {
    && n <= |order| && kept <= Elems(order[..n])
    && forall k :: 0 <= k < n ==> GreedyAt(order, weights, maxTokens, k, kept)
  }

  ghost predicate GreedyAt(order: seq<nat>, weights: seq<nat>, maxTokens: int, k: nat, kept: set<nat>)
    requires k < |order|
  {
    order[k] in kept <==> k == 0 || Weight(weights, kept * Elems(order[..k])) + At(weights, order[k]) <= maxTokens
  }

  lemma GreedyNext(order: seq<nat>, weights: seq<nat>, maxTokens: int, n: nat, kept: set<nat>, take: bool)
    requires GreedyTo(order, weights, maxTokens, n, kept) && n < |order| && NoDup(order)
    requires take <==> n == 0 || Weight(weights, kept) + At(weights, order[n]) <= maxTokens
    ensures GreedyTo(order, weights, maxTokens, n + 1, if take then kept + {order[n]} else kept)
  {
    hide Weight;
    var more := if take then kept + {order[n]} else kept;
    assert order[..n + 1] == order[..n] + [order[n]];
    forall k | 0 <= k < n + 1 ensures GreedyAt(order, weights, maxTokens, k, more) {
      assert order[n] !in order[..k];
      assert more * Elems(order[..k]) == kept * Elems(order[..k]);
      if k < n {
        assert GreedyAt(order, weights, maxTokens, k, kept);
      } else {
        assert kept * Elems(order[..n]) == kept;
      }
    }
  }

  lemma AboveOneWay(scores: seq<int>, i: nat, j: nat)
    requires Above(scores, i, j)
    ensures !Above(scores, j, i) && i != j
  {
  }

  /** In a descending order, what ranks above a position stands before it. */
  lemma AboveIsBefore(scores: seq<int>, order: seq<nat>, kept: set<nat>, k: nat)
    requires Descends(scores, order) && k < |order| && forall i :: i in kept ==> i in order
    ensures KeptAbove(scores, kept, order[k]) == kept * Elems(order[..k])
  {
    hide Above;
    forall j | j in kept
      ensures (At(scores, j) > At(scores, order[k]) || (At(scores, j) == At(scores, order[k]) && j < order[k])) <==> j in order[..k]
    {
      AboveMeans(scores, j, order[k]);
      var m :| 0 <= m < |order| && order[m] == j;
      if m < k {
        assert order[..k][m] == j;
      } else if k < m {
        AboveOneWay(scores, order[k], order[m]);
        NotBefore(scores, order, k, m);
      } else {
        NotAboveItself(scores, j);
        NotBefore(scores, order, k, m);
      }
    }
  }

  lemma AboveMeans(scores: seq<int>, i: nat, j: nat)
    ensures Above(scores, i, j) <==> At(scores, i) > At(scores, j) || (At(scores, i) == At(scores, j) && i < j)
  {
  }

  lemma NotAboveItself(scores: seq<int>, j: nat)
    ensures !Above(scores, j, j)
  {
  }

  lemma NotBefore(scores: seq<int>, order: seq<nat>, k: nat, m: nat)
    requires Descends(scores, order) && k <= m < |order|
    ensures order[m] !in order[..k]
  {
    forall i | 0 <= i < k ensures order[i] != order[m] {
      AboveOneWay(scores, order[i], order[m]);
    }
  }

  lemma DescendsNoDup(scores: seq<int>, order: seq<nat>)
    requires Descends(scores, order)
    ensures NoDup(order)
  {
    forall i, j | 0 <= i < j < |order| ensures order[i] != order[j] {
      AboveOneWay(scores, order[i], order[j]);
    }
  }

  /** The order holds each position of the messages once, best first. */
  ghost predicate Ranking(scores: seq<int>, order: seq<nat>, n: nat) {
    Descends(scores, order) && NoDup(order) && forall i: nat :: i in order <==> i < n
  }

  lemma RankedIsRanking(scores: seq<int>)
    ensures Ranking(scores, Ranked(scores, |scores|), |scores|)
  {
    var order := Ranked(scores, |scores|);
    RankedDescends(scores, |scores|);
    DescendsNoDup(scores, order);
    forall i: nat ensures i in order <==> i < |scores| {
      RankedHolds(scores, |scores|, i);
    }
  }

  lemma SelectionIsSound(scores: seq<int>, weights: seq<nat>, order: seq<nat>, maxTokens: int, kept: set<nat>, total: nat)
    requires Ranking(scores, order, |weights|) && weights != []
    requires Selection(order, weights, maxTokens, |order|, kept, total)
    ensures Sound(scores, weights, maxTokens, kept)
  {
    hide Weight, Above, NoDup;
    assert order[..|order|] == order;
    assert 0 in order;
    var top := order[0];
    forall i: nat | i < |weights| && i != top
      ensures At(scores, i) < At(scores, top) || (At(scores, i) == At(scores, top) && top < i)
    {
      AboveMeans(scores, top, i);
      assert i in order;
      var k :| 0 <= k < |order| && order[k] == i;
    }
    forall i: nat | i < |weights| && i !in kept ensures Weight(weights, kept) + weights[i] > maxTokens {
      assert i in order;
      var k :| 0 <= k < |order| && order[k] == i;
    }
    assert top in kept;
  }

  lemma GreedyIsChosen(scores: seq<int>, weights: seq<nat>, order: seq<nat>, maxTokens: int, kept: set<nat>, i: nat)
    requires Ranking(scores, order, |weights|) && i < |weights|
    requires GreedyTo(order, weights, maxTokens, |order|, kept)
    ensures Chosen(scores, weights, maxTokens, kept, i)
  {
    hide Weight, Above, NoDup, Descends;
    assert order[..|order|] == order;
    assert i in order;
    var k :| 0 <= k < |order| && order[k] == i;
    AboveIsBefore(scores, order, kept, k);
    assert GreedyAt(order, weights, maxTokens, k, kept);
    if k > 0 {
      assert GreedyAt(order, weights, maxTokens, 0, kept);
      assert order[0] == order[..k][0];
      assert order[0] in kept * Elems(order[..k]);
    } else {
      assert order[..0] == [];
    }
  }

  /** Keeps the most important messages that fit, in chronological order. */
  method CompressImportant<M>(messages: seq<M>, scorer: (seq<M>, nat) -> int, est: M -> nat, maxTokens: int)
    returns (r: seq<M>, ghost kept: set<nat>)
    ensures messages == [] || maxTokens <= 0 ==> r == messages
    ensures messages != [] && maxTokens > 0 ==> (
              var scores := seq(|messages|, i requires 0 <= i < |messages| => scorer(messages, i));
              var weights := seq(|messages|, i requires 0 <= i < |messages| => est(messages[i]));
              && r == Pick(messages, kept)
              && Sound(scores, weights, maxTokens, kept)
              && forall i: nat :: i < |messages| ==> Chosen(scores, weights, maxTokens, kept, i))
  {
    hide Weight, Above, NoDup, Descends, Sound, Chosen, Ranking, Selection, GreedyTo, Ranked;
    kept := {};
    if |messages| == 0 || maxTokens <= 0 { return messages, kept; }
    var scores := seq(|messages|, i requires 0 <= i < |messages| => scorer(messages, i));
    ghost var weights: seq<nat> := seq(|messages|, i requires 0 <= i < |messages| => est(messages[i]));
    var order := Ranked(scores, |messages|);
    RankedIsRanking(scores);
    var total: nat, selected: set<nat> := 0, {};
    FirstSelection(order, weights, maxTokens);
    for n := 0 to |order|
      invariant Selection(order, weights, maxTokens, n, selected, total) && GreedyTo(order, weights, maxTokens, n, selected)
      invariant n == 0 <==> selected == {}
    {
      RankAt(scores, order, |messages|, n);
      var tokens := est(messages[order[n]]);
      SelectionTotal(order, weights, maxTokens, n, selected, total);
      GreedyNext(order, weights, maxTokens, n, selected, n == 0 || total + tokens <= maxTokens);
      if selected != {} && total + tokens > maxTokens {
        Skip(order, weights, maxTokens, n, selected, total);
      } else {
        Keep(order, weights, maxTokens, n, selected, total);
        total := total + tokens;
        selected := selected + {order[n]};
      }
    }
    SelectionIsSound(scores, weights, order, maxTokens, selected, total);
    forall i: nat | i < |messages| ensures Chosen(scores, weights, maxTokens, selected, i) {
      GreedyIsChosen(scores, weights, order, maxTokens, selected, i);
    }
    r := [];
    for i := 0 to |messages|
      invariant r == Pick(messages[..i], selected)
    {
      assert messages[..i + 1][..i] == messages[..i];
      if i in selected {
        r := r + [messages[i]];
      }
    }
    assert messages[..|messages|] == messages;
    kept := selected;
  }

  lemma FirstSelection(order: seq<nat>, weights: seq<nat>, maxTokens: int)
    requires maxTokens > 0
    ensures Selection(order, weights, maxTokens, 0, {}, 0) && GreedyTo(order, weights, maxTokens, 0, {})
  {
    WeightNone(weights);
  }

  lemma RankAt(scores: seq<int>, order: seq<nat>, n: nat, k: nat)
    requires Ranking(scores, order, n) && k < |order|
    ensures order[k] < n && NoDup(order) && forall j :: 0 <= j < |order| ==> order[j] < n
  {
    forall j | 0 <= j < |order| ensures order[j] < n {
      assert order[j] in order;
    }
  }

  lemma SelectionTotal(order: seq<nat>, weights: seq<nat>, maxTokens: int, n: nat, kept: set<nat>, total: nat)
    requires Selection(order, weights, maxTokens, n, kept, total)
    ensures total == Weight(weights, kept)
  {
  }

  // ---- what the result looks like

  /** The kept messages stand in their original order: result k is the message at the k-th kept position. */
  lemma {:induction false} PickIsChronological<M>(messages: seq<M>, kept: set<nat>) returns (at: seq<nat>)
    ensures |at| == |Pick(messages, kept)|
    ensures forall k :: 0 <= k < |at| ==> at[k] < |messages| && at[k] in kept && Pick(messages, kept)[k] == messages[at[k]]
    ensures forall j, k :: 0 <= j < k < |at| ==> at[j] < at[k]
    ensures forall i :: i in kept && i < |messages| ==> i in at
  {
    if messages == [] {
      at := [];
    } else {
      var last := |messages| - 1;
      at := PickIsChronological(messages[..last], kept);
      if last in kept {
        at := at + [last];
      }
    }
  }

  lemma SumOne<M>(m: M, est: M -> nat)
    ensures Sum([], est) == 0 && Sum([m], est) == est(m)
  {
    assert [m][1..] == [];
  }

  lemma {:induction false} SumAppend<M>(a: seq<M>, b: seq<M>, est: M -> nat)
    ensures Sum(a + b, est) == Sum(a, est) + Sum(b, est)
  {
    if a == [] {
      assert a + b == b;
    } else {
      assert (a + b)[1..] == a[1..] + b;
      SumAppend(a[1..], b, est);
    }
  }

  /** The weight of the kept positions is the token count of the result. */
  lemma {:induction false} WeightIsSum<M>(messages: seq<M>, est: M -> nat, weights: seq<nat>, kept: set<nat>)
    requires |weights| == |messages| && forall i :: 0 <= i < |messages| ==> weights[i] == est(messages[i])
    ensures Weight(weights, kept) == Sum(Pick(messages, kept), est)
  {
    if messages != [] {
      var last := |messages| - 1;
      WeightIsSum(messages[..last], est, weights[..last], kept);
      if last in kept {
        SumAppend(Pick(messages[..last], kept), [messages[last]], est);
        assert Sum([messages[last]], est) == est(messages[last]);
        assert weights[last] == est(messages[last]);
      } else {
        assert Pick(messages, kept) == Pick(messages[..last], kept);
      }
    }
  }
}
