/** The level scheduler of a typed workflow: every ready node runs on one snapshot, then all patches commit or none. */
module Schedule {
  import opened Context
  import opened Graph
  import opened Wrappers
  import opened Batch
  import opened Merge
  import Order
  import Topo
  import Depth

  ghost predicate Valid(w: Workflow) {
    WellFormed(w.g) && Acyclic(w.g) && w.run.Keys == Ids(w.g)
  }

  // ---- the sequential reading: level by level, node by node

  ghost function NamesAt(w: Workflow, k: nat, n: nat): seq<string>
    requires Acyclic(w.g) && n <= |w.g|
  {
    if n == 0 then []
    else NamesAt(w, k, n - 1) + if Depth.DepthOf(w.g, w.g[n - 1].id) == k then [w.g[n - 1].id.name] else []
  }

  /** The nodes at depth k, by ascending id. */
  ghost function Level(w: Workflow, k: nat): seq<string>
    requires Acyclic(w.g)
  {
    Order.Sort(NamesAt(w, k, |w.g|))
  }

  datatype LevelEnd = Commits(state: State) | NodeFails | Conflicts(error: Error)

  ghost function RunLevel(w: Workflow, k: nat, s: State): LevelEnd
    requires Acyclic(w.g)
  {
    if !AllSucceed(w, Level(w, k), s) then NodeFails
    else
      match Merged(Outputs(w, Level(w, k), s), s)
      case Ok(next) => Commits(next)
      case Err(e) => Conflicts(e)
  }

  /** The state after the first k levels, if they all commit. */
  ghost function EvalTo(w: Workflow, k: nat, init: State): Option<State>
    requires Acyclic(w.g)
  {
    if k == 0 then Some(init)
    else
      match EvalTo(w, k - 1, init)
      case None => None
      case Some(s) =>
        match RunLevel(w, k - 1, s)
        case Commits(next) => Some(next)
        case _ => None
  }

  /** k levels hold every node. */
  ghost predicate Covers(w: Workflow, k: nat)
    requires Acyclic(w.g)
  {
    forall x :: x in Ids(w.g) ==> Depth.DepthOf(w.g, x) < k
  }

  // ---- levels

  lemma {:induction false} NamesAtIs(w: Workflow, k: nat, n: nat, name: string)
    requires Acyclic(w.g) && n <= |w.g|
    ensures name in NamesAt(w, k, n) <==> Id(name) in Ids(w.g[..n]) && Depth.DepthOf(w.g, Id(name)) == k
  {
    hide Acyclic, ChainLength;
    if n > 0 {
      NamesAtIs(w, k, n - 1, name);
      assert w.g[..n] == w.g[..n - 1] + [w.g[n - 1]];
      assert Ids(w.g[..n]) == Ids(w.g[..n - 1]) + {w.g[n - 1].id};
      assert w.g[n - 1].id == Id(w.g[n - 1].id.name);
    }
  }

  lemma {:induction false} NamesAtDistinct(w: Workflow, k: nat, n: nat)
    requires Acyclic(w.g) && UniqueIds(w.g) && n <= |w.g|
    ensures NoDup(NamesAt(w, k, n))
  {
    hide Acyclic, ChainLength;
    if n > 0 {
      NamesAtDistinct(w, k, n - 1);
      var init, last := w.g[..n - 1], w.g[n - 1].id;
      NamesAtIs(w, k, n - 1, last.name);
      assert last == Id(last.name);
      assert forall i :: 0 <= i < n - 1 ==> init[i] == w.g[i];
    }
  }

  lemma LevelIs(w: Workflow, k: nat)
    requires Acyclic(w.g) && UniqueIds(w.g)
    ensures Rising(Level(w, k))
    ensures forall n :: n in Level(w, k) <==> Id(n) in Ids(w.g) && Depth.DepthOf(w.g, Id(n)) == k
  {
    hide Acyclic, UniqueIds, ChainLength;
    var names := NamesAt(w, k, |w.g|);
    NamesAtDistinct(w, k, |w.g|);
    Order.SortStrict(names);
    assert w.g[..|w.g|] == w.g;
    forall n ensures n in Level(w, k) <==> Id(n) in Ids(w.g) && Depth.DepthOf(w.g, Id(n)) == k {
      NamesAtIs(w, k, |w.g|, n);
      Order.InMultiset(Order.Sort(names), names, n);
    }
  }

  lemma RisingIsSorted(s: seq<string>)
    requires Rising(s)
    ensures Order.Sorted(s) && NoDup(s)
  {
    forall i, j | 0 <= i < j < |s| ensures s[i] != s[j] {
      Order.LessAsymmetric(s[i], s[j]);
    }
  }

  /** Ascending listings of the same names are the same listing. */
  lemma {:induction false} RisingUnique(a: seq<string>, b: seq<string>)
    requires Rising(a) && Rising(b) && forall n :: n in a <==> n in b
    ensures a == b
    decreases |a|
  {
    RisingIsSorted(a);
    RisingIsSorted(b);
    NoDupSize(a);
    NoDupSize(b);
    assert Elems(a) == Elems(b);
    if a != [] {
      assert a[0] in b;
      assert b[0] in a;
      RisingHead(a, b);
      assert a == [a[0]] + a[1..] && b == [b[0]] + b[1..];
      forall n ensures n in a[1..] <==> n in b[1..] {
        assert n in a[1..] <==> n in a && n != a[0];
        assert n in b[1..] <==> n in b && n != b[0];
      }
      RisingUnique(a[1..], b[1..]);
    }
  }

  lemma RisingHead(a: seq<string>, b: seq<string>)
    requires Rising(a) && Rising(b) && a != [] && b != [] && a[0] in b && b[0] in a
    ensures a[0] == b[0]
  {
    var i :| 0 <= i < |b| && b[i] == a[0];
    var j :| 0 <= j < |a| && a[j] == b[0];
    if i > 0 && j > 0 {
      assert Order.Less(b[0], a[0]) && Order.Less(a[0], b[0]);
      Order.LessAsymmetric(a[0], b[0]);
    }
  }

  // ---- the whole run

  /** The ids of the first k levels. */
  ghost function Below(g: seq<Node>, k: nat): set<Id>
    requires Acyclic(g)
  {
    set x | x in Ids(g) && Depth.DepthOf(g, x) < k
  }

  /** Per node, the dependency occurrences that are not done yet. */
  ghost predicate Counts(g: seq<Node>, done: set<Id>, remaining: map<Id, int>) {
    remaining.Keys == Ids(g) && forall x :: x in Ids(g) ==> remaining[x] == Remaining(DepsOf(g, x), done)
  }

  lemma CountsStart(g: seq<Node>, remaining: map<Id, int>)
    requires remaining.Keys == Ids(g) && forall x :: x in Ids(g) ==> remaining[x] == |DepsOf(g, x)|
    ensures Counts(g, {}, remaining)
  {
    forall x | x in Ids(g) ensures remaining[x] == Remaining(DepsOf(g, x), {}) {
      RemainingNone(DepsOf(g, x));
    }
  }

  lemma TakeOne<T>(s: seq<T>, j: nat)
    requires j < |s|
    ensures multiset(s[..j + 1]) == multiset(s[..j]) + multiset{s[j]}
  {
    assert s[..j + 1] == s[..j] + [s[j]];
  }

  /** Takes one finished node off the count of every node that lists it. */
  method Release(g: seq<Node>, downstream: map<Id, seq<Id>>, id: Id, ghost done: set<Id>, remaining0: map<Id, int>)
    returns (remaining: map<Id, int>)
    requires UniqueIds(g) && Topo.IsDownstream(g, downstream) && Counts(g, done, remaining0) && id !in done
    ensures Counts(g, done + {id}, remaining)
  {
    hide UniqueIds, Counts, Topo.IsDownstream;
    var ds := Topo.Lookup(downstream, id);
    DownstreamAt(g, downstream, id);
    remaining := remaining0;
    for j := 0 to |ds|
      invariant remaining.Keys == remaining0.Keys
      invariant forall x :: x in remaining ==> remaining[x] == remaining0[x] - multiset(ds[..j])[x]
    {
      TakeOne(ds, j);
      InIds(g, id, ds[j], done, remaining0);
      remaining := remaining[ds[j] := remaining[ds[j]] - 1];
    }
    assert ds[..|ds|] == ds;
    Released(g, id, done, remaining0, remaining);
  }

  lemma DownstreamAt(g: seq<Node>, downstream: map<Id, seq<Id>>, id: Id)
    requires Topo.IsDownstream(g, downstream)
    ensures Topo.Lookup(downstream, id) == Topo.Downstream(g, id)
  {
  }

  lemma InIds(g: seq<Node>, id: Id, x: Id, done: set<Id>, remaining: map<Id, int>)
    requires UniqueIds(g) && Counts(g, done, remaining) && x in Topo.Downstream(g, id)
    ensures x in remaining
  {
    Topo.DownstreamIsEdge(g, id, x);
  }

  lemma Released(g: seq<Node>, id: Id, done: set<Id>, before: map<Id, int>, after: map<Id, int>)
    requires UniqueIds(g) && Counts(g, done, before) && id !in done
    requires after.Keys == before.Keys
    requires forall x :: x in after ==> after[x] == before[x] - multiset(Topo.Downstream(g, id))[x]
    ensures Counts(g, done + {id}, after)
  {
    hide UniqueIds;
    forall x | x in Ids(g) ensures after[x] == Remaining(DepsOf(g, x), done + {id}) {
      Topo.DownstreamCounts(g, id, x);
      RemainingAdd(DepsOf(g, x), done, id);
    }
  }

  /** The pending nodes without an outstanding dependency, by ascending id, in whatever order they are visited. */
  method ReadyBatch(pending: set<Id>, remaining: map<Id, int>) returns (batch: seq<string>)
    requires pending <= remaining.Keys
    ensures Rising(batch)
    ensures forall n :: n in batch <==> Id(n) in pending && remaining[Id(n)] == 0
  {
    var names: seq<string>, rest := [], pending;
    while rest != {}
      invariant rest <= pending
      invariant NoDup(names)
      invariant forall n :: n in names <==> Id(n) in pending - rest && remaining[Id(n)] == 0
      decreases |rest|
    {
      var x :| x in rest;
      assert x == Id(x.name);
      if remaining[x] == 0 {
        names := names + [x.name];
      }
      rest := rest - {x};
    }
    batch := Order.Sort(names);
    Order.SortStrict(names);
    forall n ensures n in batch <==> n in names {
      Order.InMultiset(batch, names, n);
    }
  }

  /** After k levels: what is still pending, and what it waits for. */
  ghost predicate AtLevel(w: Workflow, k: nat, pending: set<Id>, remaining: map<Id, int>)
    requires Acyclic(w.g)
  {
    && pending == Ids(w.g) - Below(w.g, k)
    && Counts(w.g, Below(w.g, k), remaining)
  }

  lemma ReadyIs(w: Workflow, k: nat, x: Id)
    requires Valid(w) && x in Ids(w.g)
    ensures x !in Below(w.g, k) && Remaining(DepsOf(w.g, x), Below(w.g, k)) == 0 <==> Depth.DepthOf(w.g, x) == k
  {
    hide Acyclic, UniqueIds, KnownDeps, ChainLength, Edge;
    var deps := DepsOf(w.g, x);
    RemainingZero(deps, Below(w.g, k));
    if Depth.DepthOf(w.g, x) == k {
      forall d | d in deps ensures d in Below(w.g, k) {
        EdgeIsDep(w.g, d, x);
        Depth.DepthGrows(w.g, d, x);
        Depth.DepInIds(w.g, d, x);
      }
    } else if Depth.DepthOf(w.g, x) > k {
      var d := Depth.DepthStep(w.g, x);
      EdgeIsDep(w.g, d, x);
      assert d !in Below(w.g, k);
    }
  }

  /** The nodes found ready after k levels are exactly level k, and there are some while anything is pending. */
  lemma ReadyIsLevel(w: Workflow, k: nat, pending: set<Id>, remaining: map<Id, int>, batch: seq<string>)
    requires Valid(w) && AtLevel(w, k, pending, remaining)
    requires Rising(batch) && forall n :: n in batch <==> Id(n) in pending && remaining[Id(n)] == 0
    ensures batch == Level(w, k)
    ensures pending != {} ==> batch != []
    ensures pending == {} <==> Covers(w, k)
  {
    hide Acyclic, UniqueIds, KnownDeps, ChainLength, Level, Rising;
    LevelIs(w, k);
    forall n ensures n in batch <==> n in Level(w, k) {
      if Id(n) in Ids(w.g) {
        ReadyIs(w, k, Id(n));
      }
    }
    RisingUnique(batch, Level(w, k));
    if pending != {} {
      var x :| x in pending;
      var y := Depth.LevelReached(w.g, x, k);
      assert y == Id(y.name);
      assert y.name in Level(w, k);
    }
  }

  /** Removes a committed batch and releases its dependents. */
  method Retire(w: Workflow, downstream: map<Id, seq<Id>>, batch: seq<string>, ghost k: nat, pending0: set<Id>, remaining0: map<Id, int>)
    returns (pending: set<Id>, remaining: map<Id, int>)
    requires Valid(w) && Topo.IsDownstream(w.g, downstream) && AtLevel(w, k, pending0, remaining0) && batch == Level(w, k)
    ensures AtLevel(w, k + 1, pending, remaining)
  {
    hide Acyclic, UniqueIds, KnownDeps, ChainLength, Level, Rising, Topo.IsDownstream, Counts, NoDup;
    LevelIs(w, k);
    RisingIsSorted(batch);
    pending, remaining := pending0, remaining0;
    ghost var done := Below(w.g, k);
    for i := 0 to |batch|
      invariant done == Below(w.g, k) + IdSet(batch[..i])
      invariant pending == Ids(w.g) - done
      invariant Counts(w.g, done, remaining)
    {
      IdSetNext(batch, i);
      assert batch[i] in batch;
      assert Id(batch[i]) !in Below(w.g, k);
      remaining := Release(w.g, downstream, Id(batch[i]), done, remaining);
      pending := pending - {Id(batch[i])};
      done := done + {Id(batch[i])};
    }
    assert batch[..|batch|] == batch;
    BelowNext(w, k, batch);
  }

  ghost function IdSet(names: seq<string>): set<Id> {
    set n | n in names :: Id(n)
  }

  lemma IdSetNext(names: seq<string>, i: nat)
    requires NoDup(names) && i < |names|
    ensures IdSet(names[..i + 1]) == IdSet(names[..i]) + {Id(names[i])} && Id(names[i]) !in IdSet(names[..i])
  {
    assert names[..i + 1] == names[..i] + [names[i]];
  }

  lemma BelowNext(w: Workflow, k: nat, batch: seq<string>)
    requires Acyclic(w.g) && forall n :: n in batch <==> Id(n) in Ids(w.g) && Depth.DepthOf(w.g, Id(n)) == k
    ensures Below(w.g, k + 1) == Below(w.g, k) + IdSet(batch)
  {
    hide Acyclic, ChainLength;
    forall x | x in Below(w.g, k + 1) ensures x in Below(w.g, k) + IdSet(batch) {
      assert x == Id(x.name);
    }
  }

  /** How a run may end: k levels committed, each with some node in it, and then the reason for stopping. */
  ghost predicate EndsAs(w: Workflow, init: State, k: nat, state: State, err: Option<Failure>)
    requires Acyclic(w.g)
  {
    && EvalTo(w, k, init) == Some(state)
    && (forall j: nat :: j < k ==> !Covers(w, j))
    && match err
       case None => Covers(w, k)
       case Some(ContextDone) => true
       case Some(MergeFailed(e)) => RunLevel(w, k, state) == Conflicts(e)
       case Some(e) => RunLevel(w, k, state).NodeFails? && CanReport(w, Level(w, k), state, e)
  }

  /** The nodes run in each committed batch: exactly those of its level, each once. */
  ghost predicate RanByLevel(w: Workflow, log: seq<seq<string>>)
    requires Acyclic(w.g)
  {
    forall k: nat :: k < |log| ==> NoDup(log[k]) && forall n :: n in log[k] <==> Id(n) in Ids(w.g) && Depth.DepthOf(w.g, Id(n)) == k
  }

  lemma CountsKeys(g: seq<Node>, done: set<Id>, remaining: map<Id, int>)
    requires Counts(g, done, remaining)
    ensures remaining.Keys == Ids(g) && forall x :: x in Ids(g) ==> remaining[x] == Remaining(DepsOf(g, x), done)
  {
  }

  lemma NothingRan(w: Workflow)
    requires Acyclic(w.g)
    ensures RanByLevel(w, [])
  {
  }

  lemma RanNext(w: Workflow, log: seq<seq<string>>, ran: seq<string>)
    requires Acyclic(w.g) && UniqueIds(w.g) && RanByLevel(w, log)
    requires NoDup(ran) && forall n :: n in ran <==> n in Level(w, |log|)
    ensures RanByLevel(w, log + [ran])
  {
    hide Acyclic, UniqueIds, ChainLength, Level, Rising, NoDup;
    LevelIs(w, |log|);
    var more := log + [ran];
    forall k: nat | k < |more|
      ensures NoDup(more[k]) && forall n :: n in more[k] <==> Id(n) in Ids(w.g) && Depth.DepthOf(w.g, Id(n)) == k
    {
      if k < |log| {
        assert more[k] == log[k];
      }
    }
  }

  lemma Shrinks(w: Workflow, k: nat, was: set<Id>, remaining0: map<Id, int>, now: set<Id>, remaining: map<Id, int>, n: string)
    requires Acyclic(w.g) && AtLevel(w, k, was, remaining0) && AtLevel(w, k + 1, now, remaining)
    requires Id(n) in Ids(w.g) && Depth.DepthOf(w.g, Id(n)) == k
    ensures |now| < |was|
  {
    hide Acyclic, ChainLength, Counts;
    assert now <= was - {Id(n)};
    Graph.Smaller(now, was - {Id(n)});
  }

  lemma AtStart(w: Workflow, pending: set<Id>, remaining: map<Id, int>, init: State)
    requires Valid(w) && pending == Ids(w.g)
    requires remaining.Keys == Ids(w.g) && forall x :: x in Ids(w.g) ==> remaining[x] == |DepsOf(w.g, x)|
    ensures AtLevel(w, 0, pending, remaining) && EvalTo(w, 0, init) == Some(init) && NoneCovers(w, 0)
  {
    hide Acyclic, UniqueIds, KnownDeps, ChainLength, Counts;
    CountsStart(w.g, remaining);
    assert Below(w.g, 0) == {};
  }

  /** Every committed level has some node in it. */
  ghost predicate NoneCovers(w: Workflow, k: nat)
    requires Acyclic(w.g)
  {
    forall j: nat :: j < k ==> !Covers(w, j)
  }

  lemma Stops(w: Workflow, init: State, k: nat, state: State, failure: Failure)
    requires Acyclic(w.g) && EvalTo(w, k, init) == Some(state) && NoneCovers(w, k)
    requires failure.NodeFailed? ==> !AllSucceed(w, Level(w, k), state) && CanReport(w, Level(w, k), state, failure)
    requires failure.MergeFailed? ==> AllSucceed(w, Level(w, k), state)
    requires failure.MergeFailed? ==> Merged(Outputs(w, Level(w, k), state), state) == Err(failure.error)
    ensures EndsAs(w, init, k, state, Some(failure))
  {
    hide Acyclic, Level, AllSucceed, Outputs, Merged, EvalTo, Covers, CanReport;
  }

  lemma Goes(w: Workflow, init: State, k: nat, state: State, next: State)
    requires Acyclic(w.g) && EvalTo(w, k, init) == Some(state) && NoneCovers(w, k) && !Covers(w, k)
    requires AllSucceed(w, Level(w, k), state) && Merged(Outputs(w, Level(w, k), state), state) == Ok(next)
    ensures EvalTo(w, k + 1, init) == Some(next) && NoneCovers(w, k + 1)
  {
    hide Acyclic, Level, AllSucceed, Outputs, Merged, Covers;
  }

  lemma Finishes(w: Workflow, init: State, k: nat, state: State, pending: set<Id>, remaining: map<Id, int>)
    requires Valid(w) && AtLevel(w, k, pending, remaining) && pending == {}
    requires EvalTo(w, k, init) == Some(state) && NoneCovers(w, k)
    ensures EndsAs(w, init, k, state, None)
  {
    hide Acyclic, UniqueIds, KnownDeps, ChainLength, EvalTo;
    forall x | x in Ids(w.g) ensures Depth.DepthOf(w.g, x) < k {
      assert x !in pending;
    }
  }

  /** The next batch is the next level, and never empty while something is pending. */
  method NextBatch(w: Workflow, pending: set<Id>, remaining: map<Id, int>, ghost k: nat) returns (batch: seq<string>)
    requires Valid(w) && AtLevel(w, k, pending, remaining)
    ensures batch == Level(w, k) && NoDup(batch)
    ensures pending != {} ==> !Covers(w, k) && batch != [] && Id(batch[0]) in Ids(w.g) && Depth.DepthOf(w.g, Id(batch[0])) == k
  {
    hide Acyclic, UniqueIds, KnownDeps, ChainLength, Level, Rising, Counts, NoDup, Covers;
    CountsKeys(w.g, Below(w.g, k), remaining);
    batch := ReadyBatch(pending, remaining);
    ReadyIsLevel(w, k, pending, remaining, batch);
    LevelIs(w, k);
    RisingIsSorted(batch);
    if pending != {} {
      assert batch[0] in Level(w, k);
    }
  }

  /** Runs a validated workflow under any interleaving, cap and moment of cancellation. An empty batch while nodes are
      pending, which the scheduler would report as an internal error, cannot occur. */
  method Execute(w: Workflow, init: State, gone: nat -> bool)
    returns (state: State, err: Option<Failure>, ghost k: nat, ghost log: seq<seq<string>>)
    requires Valid(w)
    ensures exists j: nat :: EndsAs(w, init, j, state, err)
    ensures err == Some(ContextDone) ==> CallerLeaves(gone)
    ensures EndsAs(w, init, k, state, err) && |log| == k && RanByLevel(w, log)
  {
    hide Acyclic, UniqueIds, KnownDeps, ChainLength, Level, Topo.IsDownstream, NoDup, AllSucceed, Outputs, Merged, Covers,
         RanByLevel, AtLevel, EvalTo, NoneCovers, EndsAs, IsLeast, CanReport;
    state, err, k, log := init, None, 0, [];
    var downstream, remaining := Topo.BuildMaps(w.g);
    var pending := set i | 0 <= i < |w.g| :: w.g[i].id;
    AtStart(w, pending, remaining, init);
    NothingRan(w);
    while pending != {}
      invariant AtLevel(w, k, pending, remaining)
      invariant EvalTo(w, k, init) == Some(state) && NoneCovers(w, k)
      invariant |log| == k && RanByLevel(w, log)
      decreases |pending|
    {
      var moment: nat := *;
      if gone(moment) {
        IsGone(gone, moment);
        Stops(w, init, k, state, ContextDone);
        return state, Some(ContextDone), k, log;
      }
      var batch := NextBatch(w, pending, remaining, k);
      assert batch != [];
      ghost var ran;
      var r;
      r, ran := RunBatch(w, batch, state, gone);
      if r.Err? {
        Stops(w, init, k, state, r.error);
        return state, Some(r.error), k, log;
      }
      var next, conflict := MergeBatch(r.value, state);
      if conflict.Some? {
        Stops(w, init, k, state, MergeFailed(conflict.value));
        return state, Some(MergeFailed(conflict.value)), k, log;
      }
      Goes(w, init, k, state, next);
      RanNext(w, log, ran);
      state := next;
      ghost var was, had := pending, remaining;
      pending, remaining := Retire(w, downstream, batch, k, pending, remaining);
      Shrinks(w, k, was, had, pending, remaining, batch[0]);
      k, log := k + 1, log + [ran];
    }
    Finishes(w, init, k, state, pending, remaining);
  }

  // ---- the schedule is invisible

  lemma {:induction false} EvalStops(w: Workflow, k: nat, j: nat, init: State)
    requires Acyclic(w.g) && EvalTo(w, k, init).None? && k <= j
    ensures EvalTo(w, j, init).None?
  {
    hide Acyclic, RunLevel;
    if k < j {
      EvalStops(w, k, j - 1, init);
    }
  }

  lemma NoMembers<T>(s: seq<T>)
    requires forall x :: x !in s
    ensures s == []
  {
    if s != [] {
      NotIn(s);
    }
  }

  lemma NotIn<T>(s: seq<T>)
    requires s != []
    ensures exists x :: x in s
  {
    assert s[0] in s;
  }

  lemma CoveredCommits(w: Workflow, k: nat, s: State)
    requires Valid(w) && Covers(w, k)
    ensures RunLevel(w, k, s).Commits?
  {
    hide Acyclic, ChainLength, UniqueIds, KnownDeps, Level;
    LevelIs(w, k);
    forall n ensures n !in Level(w, k) {
    }
    NoMembers(Level(w, k));
    assert Outputs(w, [], s) == [];
    assert Scan([]) == None;
    assert Contested([]) == {};
  }

  // The cap decides when nodes run, and nothing of what the levels make of a state.

  lemma {:induction false} CapKeepsNames(w: Workflow, cap: nat, k: nat, n: nat)
    requires Acyclic(w.g) && n <= |w.g|
    ensures NamesAt(w.(cap := cap), k, n) == NamesAt(w, k, n)
  {
    hide Acyclic, ChainLength;
    if n > 0 {
      CapKeepsNames(w, cap, k, n - 1);
    }
  }

  lemma {:induction false} CapKeepsOutputs(w: Workflow, cap: nat, names: seq<string>, s: State)
    ensures Outputs(w.(cap := cap), names, s) == Outputs(w, names, s)
  {
    if names != [] {
      CapKeepsOutputs(w, cap, names[1..], s);
    }
  }

  lemma CapKeepsSuccess(w: Workflow, cap: nat, names: seq<string>, s: State)
    ensures AllSucceed(w.(cap := cap), names, s) == AllSucceed(w, names, s)
  {
    assert forall n :: RunOf(w.(cap := cap), n, s) == RunOf(w, n, s);
  }

  lemma CapKeepsLevel(w: Workflow, cap: nat, k: nat, s: State)
    requires Acyclic(w.g)
    ensures Level(w.(cap := cap), k) == Level(w, k) && RunLevel(w.(cap := cap), k, s) == RunLevel(w, k, s)
  {
    hide Acyclic, ChainLength, NamesAt, AllSucceed, Outputs, Merged, Order.Sort, Order.Sorted;
    CapKeepsNames(w, cap, k, |w.g|);
    CapKeepsOutputs(w, cap, Level(w, k), s);
    CapKeepsSuccess(w, cap, Level(w, k), s);
  }

  lemma {:induction false} CapKeepsEval(w: Workflow, cap: nat, k: nat, init: State)
    requires Acyclic(w.g)
    ensures EvalTo(w.(cap := cap), k, init) == EvalTo(w, k, init)
    decreases k
  {
    hide Acyclic, ChainLength, RunLevel, Level;
    var v := w.(cap := cap);
    if k > 0 {
      CapKeepsEval(w, cap, k - 1, init);
      var before := EvalTo(w, k - 1, init);
      if before.Some? {
        CapKeepsLevel(w, cap, k - 1, before.value);
      }
    }
  }

  lemma CapKeepsCulprit(w: Workflow, cap: nat, names: seq<string>, s: State, x: nat)
    requires x < |names| && Culprit(w, names, s, x)
    ensures Culprit(w.(cap := cap), names, s, x)
  {
    assert forall n :: RunOf(w.(cap := cap), n, s) == RunOf(w, n, s);
  }

  /** How a run of the workflow under another cap ends, told of the workflow itself. */
  ghost predicate EndsUnder(w: Workflow, cap: nat, init: State, k: nat, state: State, err: Option<Failure>)
    requires Acyclic(w.g)
  {
    && EvalTo(w, k, init) == Some(state)
    && NoneCovers(w, k)
    && match err
       case None => Covers(w, k)
       case Some(ContextDone) => true
       case Some(MergeFailed(e)) => RunLevel(w, k, state) == Conflicts(e)
       case Some(e) => RunLevel(w, k, state).NodeFails? && CanReport(w.(cap := cap), Level(w, k), state, e)
  }

  lemma UnderCap(w: Workflow, cap: nat, init: State, k: nat, state: State, err: Option<Failure>)
    requires Acyclic(w.g) && EndsAs(w.(cap := cap), init, k, state, err)
    ensures EndsUnder(w, cap, init, k, state, err)
  {
    hide Acyclic, ChainLength, RunLevel, EvalTo, Level, CanReport;
    CapKeepsEval(w, cap, k, init);
    CapKeepsLevel(w, cap, k, state);
    forall j: nat | j < k ensures !Covers(w, j) {
      assert !Covers(w.(cap := cap), j);
    }
  }

  /** How far an uncancelled run gets. */
  lemma NotFurther(w: Workflow, c: nat, d: nat, init: State, k: nat, a: State, e: Option<Failure>, j: nat, b: State, f: Option<Failure>)
    requires Valid(w) && EndsUnder(w, c, init, k, a, e) && EndsUnder(w, d, init, j, b, f) && e != Some(ContextDone)
    ensures j <= k
  {
    hide Acyclic, ChainLength, UniqueIds, KnownDeps, Covers, RunLevel, Level, CanReport;
    if k < j {
      assert !Covers(w, k);
      assert e.Some?;
      assert !RunLevel(w, k, a).Commits?;
      assert EvalTo(w, k + 1, init).None?;
      EvalStops(w, k + 1, j, init);
    }
  }

  /** Only a culprit is reported, under any cap. */
  lemma CulpritNamed(w: Workflow, cap: nat, k: nat, s: State, x: nat, e: Failure)
    requires Valid(w) && x < |Level(w, k)| && Culprit(w, Level(w, k), s, x) && CanReport(w.(cap := cap), Level(w, k), s, e)
    ensures e.NodeFailed? && e.id == Level(w, k)[x]
  {
    hide Acyclic, ChainLength, UniqueIds, KnownDeps, Level, Reachable, Culprit, Rising;
    var b, i: nat :| Reports(w.(cap := cap), Level(w, k), s, b, i) && e == NodeFailed(Level(w, k)[i], b.ts[i].outcome.fault);
    LevelIs(w, k);
    CapKeepsCulprit(w, cap, Level(w, k), s, x);
    CulpritReported(w.(cap := cap), Level(w, k), s, x, b, i);
  }

  /** Two uncancelled runs of one workflow from one state commit the same batches and end in the same state, in success
      or failure alike, with the same merge error if any, whatever the interleavings and even under different caps; and
      they report the same failing node if the failing batch has a single culprit. */
  lemma ScheduleIsInvisible(w: Workflow, cap: nat, init: State, k: nat, a: State, e: Option<Failure>, j: nat, b: State, f: Option<Failure>)
    requires Valid(w) && EndsAs(w, init, k, a, e) && EndsAs(w.(cap := cap), init, j, b, f)
    requires e != Some(ContextDone) && f != Some(ContextDone)
    ensures k == j && a == b
    ensures (e.None? <==> f.None?) && (e.Some? && f.Some? && e.value.MergeFailed? ==> e == f)
    ensures e.Some? && f.Some? && e.value.NodeFailed? ==> f.value.NodeFailed?
    ensures e.Some? && f.Some? && e.value.NodeFailed? && OneCulprit(w, Level(w, k), a) ==> e.value.id == f.value.id
  {
    hide Acyclic, ChainLength, UniqueIds, KnownDeps, Covers, RunLevel, Level, CanReport, EndsAs, EvalTo, NoneCovers, Culprit;
    assert w.(cap := w.cap) == w;
    UnderCap(w, w.cap, init, k, a, e);
    UnderCap(w, cap, init, j, b, f);
    NotFurther(w, w.cap, cap, init, k, a, e, j, b, f);
    NotFurther(w, cap, w.cap, init, j, b, f, k, a, e);
    if e.None? || f.None? {
      CoveredCommits(w, k, a);
    } else if e.value.NodeFailed? && OneCulprit(w, Level(w, k), a) {
      var x: nat :| x < |Level(w, k)| && Culprit(w, Level(w, k), a, x);
      CulpritNamed(w, w.cap, k, a, x, e.value);
      CulpritNamed(w, cap, k, a, x, f.value);
    }
  }

  /** Some uncancelled runs of the workflow from one state report different nodes. */
  ghost predicate NamesTwo(w: Workflow, init: State)
    requires Acyclic(w.g)
  {
    exists k, s, e, f :: EndsAs(w, init, k, s, Some(e)) && EndsAs(w, init, k, s, Some(f)) && e.NodeFailed? && f.NodeFailed? && e.id != f.id
  }

  lemma NamedIsReported(w: Workflow, names: seq<string>, s: State, id: string) returns (e: Failure)
    requires CanName(w, names, s, id)
    ensures CanReport(w, names, s, e) && e.NodeFailed? && e.id == id
  {
    hide Reachable;
    var b, i: nat :| Reports(w, names, s, b, i) && names[i] == id;
    e := NodeFailed(names[i], b.ts[i].outcome.fault);
  }

  /** Where a workflow fails in a node, which node it reports depends on the schedule exactly if the failing batch has
      no single culprit. */
  lemma NamesTwoIff(w: Workflow, init: State, k: nat, s: State)
    requires Valid(w) && EvalTo(w, k, init) == Some(s) && NoneCovers(w, k) && RunLevel(w, k, s).NodeFails?
    ensures NamesTwo(w, init) <==> !OneCulprit(w, Level(w, k), s)
  {
    hide Acyclic, ChainLength, UniqueIds, KnownDeps, Covers, Level, CanReport, CanName, EvalTo, OneCulprit, Rising;
    LevelIs(w, k);
    assert !AllSucceed(w, Level(w, k), s) by {
      hide AllSucceed;
    }
    ReportVariesIff(w, Level(w, k), s);
    if !OneCulprit(w, Level(w, k), s) {
      var a, b :| CanName(w, Level(w, k), s, a) && CanName(w, Level(w, k), s, b) && a != b;
      var e := NamedIsReported(w, Level(w, k), s, a);
      var f := NamedIsReported(w, Level(w, k), s, b);
      assert EndsAs(w, init, k, s, Some(e)) && EndsAs(w, init, k, s, Some(f));
    } else if NamesTwo(w, init) {
      var j, t, e, f :| EndsAs(w, init, j, t, Some(e)) && EndsAs(w, init, j, t, Some(f)) && e.NodeFailed? && f.NodeFailed? && e.id != f.id;
      assert w.(cap := w.cap) == w;
      ScheduleIsInvisible(w, w.cap, init, j, t, Some(e), j, t, Some(f));
      ReachedOnce(w, init, k, s, j, t, e);
      assert false;
    }
  }

  lemma ReachedOnce(w: Workflow, init: State, k: nat, s: State, j: nat, t: State, e: Failure)
    requires Valid(w) && EvalTo(w, k, init) == Some(s) && NoneCovers(w, k) && RunLevel(w, k, s).NodeFails?
    requires EndsAs(w, init, j, t, Some(e)) && e.NodeFailed?
    ensures j == k && t == s
  {
    hide Acyclic, ChainLength, UniqueIds, KnownDeps, Covers, RunLevel, Level, CanReport;
    if j < k {
      assert EvalTo(w, j + 1, init).None?;
      EvalStops(w, j + 1, k, init);
    } else if k < j {
      assert EvalTo(w, k + 1, init).None?;
      EvalStops(w, k + 1, j, init);
    }
  }
}
