/** One batch of a typed workflow: its nodes run on one snapshot, in any interleaving and under a concurrency cap. */
module Batch {
  import opened Context
  import opened Graph
  import opened Wrappers
  import opened Merge
  import Order

  /** A node's own error, and whether it only echoes a cancellation. */
  datatype Fault = Fault(code: nat, cancel: bool)

  datatype Outcome = Patch(changes: seq<Change>) | Fail(fault: Fault)

  /** run says what a node makes of a snapshot while nothing is cancelled. polite: under a cancelled context every node
      either ends the same way or returns the cancellation; otherwise it may then end in any way. */
  datatype Workflow = Workflow(g: seq<Node>, run: map<Id, State -> Outcome>, cap: nat, polite: bool)

  datatype Failure = ContextDone | NodeFailed(id: string, fault: Fault) | MergeFailed(error: Error)

  function RunOf(w: Workflow, name: string, s: State): Outcome {
    if Id(name) in w.run then w.run[Id(name)](s) else Fail(Fault(0, false))
  }

  ghost predicate AllSucceed(w: Workflow, names: seq<string>, s: State) {
    forall n :: n in names ==> RunOf(w, n, s).Patch?
  }

  /** Each node's patch, one node after another, all on the same snapshot. */
  function Outputs(w: Workflow, names: seq<string>, s: State): seq<NodeResult> {
    if names == [] then []
    else
      var o := RunOf(w, names[0], s);
      [NodeResult(names[0], if o.Patch? then o.changes else [])] + Outputs(w, names[1..], s)
  }

  /** Ascending, without repeats: the order in which a batch is handed over. */
  predicate Rising(s: seq<string>) {
    forall i, j :: 0 <= i < j < |s| ==> Order.Less(s[i], s[j])
  }

  /** How a node that ends so by itself may end under a cancelled context. */
  ghost predicate May(w: Workflow, own: Outcome, o: Outcome) {
    o == own || !w.polite || (o.Fail? && o.fault.cancel)
  }

  // ---- running one batch

  datatype Task = Idle | Holding | Finished(outcome: Outcome)

  function HoldingCount(ts: seq<Task>): nat {
    if ts == [] then 0 else HoldingCount(ts[..|ts| - 1]) + if ts[|ts| - 1].Holding? then 1 else 0
  }

  function Steps(ts: seq<Task>): nat {
    if ts == [] then 0
    else Steps(ts[..|ts| - 1]) + match ts[|ts| - 1] case Idle => 2 case Holding => 1 case Finished(_) => 0
  }

  lemma {:induction false} TaskChange(ts: seq<Task>, i: nat, t: Task)
    requires i < |ts|
    ensures HoldingCount(ts[i := t]) == HoldingCount(ts) + (if t.Holding? then 1 else 0) - (if ts[i].Holding? then 1 else 0)
    ensures Steps(ts[i := t]) == Steps(ts) + (match t case Idle => 2 case Holding => 1 case Finished(_) => 0)
                                 - (match ts[i] case Idle => 2 case Holding => 1 case Finished(_) => 0)
  {
    var last := |ts| - 1;
    if i < last {
      TaskChange(ts[..last], i, t);
      assert ts[i := t][..last] == ts[..last][i := t];
    } else {
      assert ts[i := t][..last] == ts[..last];
    }
  }

  lemma {:induction false} SomeoneHolds(ts: seq<Task>)
    requires HoldingCount(ts) > 0
    ensures exists i :: 0 <= i < |ts| && ts[i].Holding?
  {
    var last := |ts| - 1;
    if !ts[last].Holding? {
      SomeoneHolds(ts[..last]);
    }
  }

  lemma {:induction false} FreshTasks(n: nat)
    ensures HoldingCount(seq(n, i => Idle)) == 0
  {
    if n > 0 {
      FreshTasks(n - 1);
      assert seq(n, i => Idle)[..n - 1] == seq(n - 1, i => Idle);
    }
  }

  /** A task can start, if a slot is free or none is needed; give up, if the batch is cancelled; or end. */
  predicate CanMove(ts: seq<Task>, cap: nat, used: nat, cancelled: bool, i: nat) {
    i < |ts| && (ts[i].Holding? || (ts[i].Idle? && (cap == 0 || used < cap || cancelled)))
  }

  ghost predicate Genuine(w: Workflow, names: seq<string>, s: State, ts: seq<Task>) {
    exists i :: 0 <= i < |names| == |ts| && ts[i].Finished? && ts[i].outcome.Fail? && ts[i].outcome == RunOf(w, names[i], s)
  }

  /** Unless the caller cancels: a cancelled batch has a node that really fails, and otherwise results are right. */
  ghost predicate BatchState(w: Workflow, names: seq<string>, s: State, ts: seq<Task>, used: nat, cancelled: bool, done: bool) {
    && |ts| == |names|
    && used == HoldingCount(ts)
    && (w.cap > 0 ==> used <= w.cap)
    && (done ==> cancelled)
    && (!done && cancelled ==> Genuine(w, names, s, ts))
    && (!cancelled ==> forall i :: 0 <= i < |ts| && ts[i].Finished? ==>
          ts[i].outcome.Patch? && ts[i].outcome == RunOf(w, names[i], s))
    && (forall i :: 0 <= i < |ts| && ts[i].Finished? ==> May(w, RunOf(w, names[i], s), ts[i].outcome))
  }

  lemma GenuineStays(w: Workflow, names: seq<string>, s: State, ts: seq<Task>, i: nat, t: Task)
    requires Genuine(w, names, s, ts) && i < |ts| && !ts[i].Finished?
    ensures Genuine(w, names, s, ts[i := t])
  {
    var j :| 0 <= j < |names| == |ts| && ts[j].Finished? && ts[j].outcome.Fail? && ts[j].outcome == RunOf(w, names[j], s);
    assert ts[i := t][j] == ts[j];
  }

  lemma GenuineNow(w: Workflow, names: seq<string>, s: State, ts: seq<Task>, i: nat, o: Outcome)
    requires i < |names| == |ts| && o.Fail? && RunOf(w, names[i], s) == o
    ensures Genuine(w, names, s, ts[i := Finished(o)])
  {
    assert ts[i := Finished(o)][i] == Finished(o);
  }

  /** A node that has ended, or one that gives up because the batch is already cancelled. */
  lemma EndTask(w: Workflow, names: seq<string>, s: State, ts: seq<Task>, used: nat, cancelled: bool, done: bool, i: nat, o: Outcome)
    requires BatchState(w, names, s, ts, used, cancelled, done) && i < |ts| && !ts[i].Finished?
    requires (!cancelled ==> o == RunOf(w, names[i], s)) && May(w, RunOf(w, names[i], s), o)
    ensures BatchState(w, names, s, ts[i := Finished(o)], HoldingCount(ts[i := Finished(o)]), cancelled || o.Fail?, done)
    ensures HoldingCount(ts[i := Finished(o)]) == if ts[i].Holding? then used - 1 else used
  {
    hide RunOf, Genuine, May;
    TaskChange(ts, i, Finished(o));
    if !done && cancelled {
      GenuineStays(w, names, s, ts, i, Finished(o));
    } else if !done && o.Fail? {
      GenuineNow(w, names, s, ts, i, o);
    }
  }

  lemma StartTask(w: Workflow, names: seq<string>, s: State, ts: seq<Task>, used: nat, cancelled: bool, done: bool, i: nat)
    requires BatchState(w, names, s, ts, used, cancelled, done) && i < |ts| && ts[i].Idle? && (w.cap == 0 || used < w.cap)
    ensures BatchState(w, names, s, ts[i := Holding], used + 1, cancelled, done)
  {
    hide RunOf, Genuine, May;
    TaskChange(ts, i, Holding);
    if !done && cancelled {
      GenuineStays(w, names, s, ts, i, Holding);
    }
  }

  lemma SomeoneCanMove(w: Workflow, names: seq<string>, s: State, ts: seq<Task>, used: nat, cancelled: bool, done: bool)
    requires BatchState(w, names, s, ts, used, cancelled, done) && exists i :: 0 <= i < |ts| && !ts[i].Finished?
    ensures exists i :: CanMove(ts, w.cap, used, cancelled, i)
  {
    hide RunOf, Genuine;
    var i :| 0 <= i < |ts| && !ts[i].Finished?;
    if !CanMove(ts, w.cap, used, cancelled, i) {
      SomeoneHolds(ts);
      var j :| 0 <= j < |ts| && ts[j].Holding?;
      assert CanMove(ts, w.cap, used, cancelled, j);
    } else {
      assert CanMove(ts, w.cap, used, cancelled, i);
    }
  }

  /** Nodes that have been run: every one that holds a slot or has delivered a patch. */
  ghost predicate RanOnce(names: seq<string>, ts: seq<Task>, ran: seq<string>) {
    && |ts| == |names| && NoDup(names) && NoDup(ran)
    && (forall n :: n in ran ==> n in names)
    && (forall i :: 0 <= i < |ts| && ts[i].Idle? ==> names[i] !in ran)
    && (forall i :: 0 <= i < |ts| && (ts[i].Holding? || (ts[i].Finished? && ts[i].outcome.Patch?)) ==> names[i] in ran)
  }

  lemma RanStart(names: seq<string>, ts: seq<Task>, ran: seq<string>, i: nat)
    requires RanOnce(names, ts, ran) && i < |ts| && ts[i].Idle?
    ensures RanOnce(names, ts[i := Holding], ran + [names[i]])
  {
  }

  lemma RanEnd(names: seq<string>, ts: seq<Task>, ran: seq<string>, i: nat, o: Outcome)
    requires RanOnce(names, ts, ran) && i < |ts| && (ts[i].Holding? || (ts[i].Idle? && o.Fail?))
    ensures RanOnce(names, ts[i := Finished(o)], ran)
  {
  }

  const GAVE_UP := Fault(0, true)

  /** What can happen in a batch that its caller does not cancel: a node gets its slot, a node that has one ends, and
      a node still waiting for its slot gives up once some node has failed. */
  datatype Move = Start(i: nat) | End(i: nat, outcome: Outcome) | GiveUp(i: nat)

  datatype Tasks = Tasks(ts: seq<Task>, cancelled: bool)

  ghost predicate Can(w: Workflow, names: seq<string>, s: State, b: Tasks, m: Move) {
    m.i < |b.ts| == |names|
    && match m
       case Start(i) => b.ts[i].Idle? && (w.cap == 0 || HoldingCount(b.ts) < w.cap)
       case End(i, o) => b.ts[i].Holding? && May(w, RunOf(w, names[i], s), o) && (!b.cancelled ==> o == RunOf(w, names[i], s))
       case GiveUp(i) => b.ts[i].Idle? && w.cap > 0 && b.cancelled
  }

  function Do(b: Tasks, m: Move): Tasks
    requires m.i < |b.ts|
  {
    match m
    case Start(i) => b.(ts := b.ts[i := Holding])
    case End(i, o) => Tasks(b.ts[i := Finished(o)], b.cancelled || o.Fail?)
    case GiveUp(i) => b.(ts := b.ts[i := Finished(Fail(GAVE_UP))])
  }

  function Fresh(n: nat): Tasks {
    Tasks(seq(n, i => Idle), false)
  }

  /** Where a sequence of possible moves leads. */
  ghost predicate Leads(w: Workflow, names: seq<string>, s: State, moves: seq<Move>, b: Tasks) {
    if moves == [] then b == Fresh(|names|)
    else
      var last := moves[|moves| - 1];
      exists a :: Leads(w, names, s, moves[..|moves| - 1], a) && Can(w, names, s, a, last) && b == Do(a, last)
  }

  /** Some interleaving leads here. */
  ghost predicate Reachable(w: Workflow, names: seq<string>, s: State, b: Tasks) {
    exists moves :: Leads(w, names, s, moves, b)
  }

  lemma ReachFresh(w: Workflow, names: seq<string>, s: State)
    ensures Reachable(w, names, s, Fresh(|names|))
  {
    assert Leads(w, names, s, [], Fresh(|names|));
  }

  lemma ReachOn(w: Workflow, names: seq<string>, s: State, b: Tasks, m: Move)
    requires Reachable(w, names, s, b) && Can(w, names, s, b, m)
    ensures Reachable(w, names, s, Do(b, m))
  {
    hide Do;
    var moves :| Leads(w, names, s, moves, b);
    var more := moves + [m];
    assert more[..|more| - 1] == moves && more[|more| - 1] == m;
    assert Leads(w, names, s, more, Do(b, m));
  }

  /** Runs the tasks in some interleaving: slots are taken when free, a failure cancels the batch, and a cancelled task may
      do anything. gone says whether the caller's context is found cancelled, at each moment it is looked at. */
  method RunTasks(w: Workflow, names: seq<string>, snap: State, gone: nat -> bool)
    returns (ts: seq<Task>, ghost cancelled: bool, contextDone: bool, ghost ran: seq<string>)
    requires NoDup(names)
    ensures BatchState(w, names, snap, ts, HoldingCount(ts), cancelled, contextDone)
    ensures forall i :: 0 <= i < |ts| ==> ts[i].Finished?
    ensures RanOnce(names, ts, ran)
    ensures !contextDone ==> Reachable(w, names, snap, Tasks(ts, cancelled))
    ensures contextDone ==> CallerLeaves(gone)
  {
    hide RunOf, Genuine, RanOnce, HoldingCount, Steps, May, Reachable;
    ts := seq(|names|, i => Idle);
    var used: nat := 0;
    var batchDone := false;
    contextDone, ran := false, [];
    FreshTasks(|names|);
    FreshRan(names);
    ReachFresh(w, names, snap);
    while exists i :: 0 <= i < |ts| && !ts[i].Finished?
      invariant BatchState(w, names, snap, ts, used, batchDone, contextDone)
      invariant RanOnce(names, ts, ran)
      invariant !contextDone ==> Reachable(w, names, snap, Tasks(ts, batchDone))
      invariant contextDone ==> CallerLeaves(gone)
      decreases Steps(ts)
    {
      var moment: nat := *;
      if gone(moment) {
        IsGone(gone, moment);
        contextDone, batchDone := true, true;
      }
      SomeoneCanMove(w, names, snap, ts, used, batchDone, contextDone);
      var i :| 0 <= i < |ts| && CanMove(ts, w.cap, used, batchDone, i);
      var starts: bool := *;
      if ts[i].Idle? && (w.cap == 0 || (used < w.cap && (!batchDone || starts))) {
        if !contextDone {
          ReachOn(w, names, snap, Tasks(ts, batchDone), Start(i));
        }
        StartTask(w, names, snap, ts, used, batchDone, contextDone, i);
        RanStart(names, ts, ran, i);
        TaskChange(ts, i, Holding);
        ran := ran + [names[i]];
        ts, used := ts[i := Holding], used + 1;
      } else {
        var o := RunOf(w, names[i], snap);
        if ts[i].Idle? {
          o := Fail(GAVE_UP);
        } else if batchDone {
          var any: Outcome := *;
          if !w.polite || (any.Fail? && any.fault.cancel) {
            o := any;
          }
        }
        MayEnd(w, RunOf(w, names[i], snap), o);
        if !contextDone {
          ReachOn(w, names, snap, Tasks(ts, batchDone), if ts[i].Idle? then GiveUp(i) else End(i, o));
        }
        EndTask(w, names, snap, ts, used, batchDone, contextDone, i, o);
        RanEnd(names, ts, ran, i, o);
        TaskChange(ts, i, Finished(o));
        if ts[i].Holding? {
          used := used - 1;
        }
        batchDone := batchDone || o.Fail?;
        ts := ts[i := Finished(o)];
      }
    }
    cancelled := batchDone;
  }

  lemma MayEnd(w: Workflow, own: Outcome, o: Outcome)
    requires o == own || !w.polite || (o.Fail? && o.fault.cancel)
    ensures May(w, own, o)
  {
  }

  lemma FreshRan(names: seq<string>)
    requires NoDup(names)
    ensures RanOnce(names, seq(|names|, i => Idle), [])
  {
  }

  /** Node i is the one to report: the least of those that failed with an error of their own, or, if all failures are
      cancellation errors, the first. */
  ghost predicate IsReport(names: seq<string>, ts: seq<Task>, i: nat)
    requires |ts| == |names| && forall j :: 0 <= j < |ts| ==> ts[j].Finished?
  {
    && i < |ts| && ts[i].outcome.Fail?
    && (if ts[i].outcome.fault.cancel
        then (forall j :: 0 <= j < |ts| && ts[j].outcome.Fail? ==> ts[j].outcome.fault.cancel)
             && (forall j :: 0 <= j < i ==> ts[j].outcome.Patch?)
        else forall j :: 0 <= j < |ts| && ts[j].outcome.Fail? && !ts[j].outcome.fault.cancel ==> Order.Leq(names[i], names[j]))
  }

  /** The error a failed batch reports: the node's own before an echo of the cancellation, least id first. */
  method PickError(names: seq<string>, ts: seq<Task>) returns (bad: Option<Failure>)
    requires |ts| == |names| && forall i :: 0 <= i < |ts| ==> ts[i].Finished?
    ensures bad.None? <==> forall i :: 0 <= i < |ts| ==> ts[i].outcome.Patch?
    ensures bad.Some? ==> exists i: nat :: IsReport(names, ts, i) && bad.value == NodeFailed(names[i], ts[i].outcome.fault)
  {
    bad := None;
    ghost var at: nat := 0;
    for k := 0 to |ts|
      invariant bad.Some? ==> at < k && ts[at].outcome.Fail? && bad.value == NodeFailed(names[at], ts[at].outcome.fault)
      invariant bad.Some? ==> !bad.value.fault.cancel
      invariant forall i :: 0 <= i < k && ts[i].outcome.Fail? && !ts[i].outcome.fault.cancel ==>
                  bad.Some? && Order.Leq(bad.value.id, names[i])
    {
      var o := ts[k].outcome;
      if o.Fail? && !o.fault.cancel {
        if bad.None? || Order.Less(names[k], bad.value.id) {
          if bad.Some? {
            LeastSoFar(names, ts, k, bad.value.id);
          }
          bad, at := Some(NodeFailed(names[k], o.fault)), k;
        } else {
          Order.LessTotal(names[k], bad.value.id);
        }
      }
    }
    if bad.Some? {
      assert IsReport(names, ts, at);
      return;
    }
    for k := 0 to |ts|
      invariant forall i :: 0 <= i < k ==> ts[i].outcome.Patch?
    {
      if ts[k].outcome.Fail? {
        assert IsReport(names, ts, k);
        return Some(NodeFailed(names[k], ts[k].outcome.fault));
      }
    }
  }

  lemma LeastSoFar(names: seq<string>, ts: seq<Task>, k: nat, best: string)
    requires k < |ts| == |names| && (forall i :: 0 <= i < |ts| ==> ts[i].Finished?) && Order.Less(names[k], best)
    ensures forall i :: 0 <= i < k && ts[i].outcome.Fail? && !ts[i].outcome.fault.cancel && Order.Leq(best, names[i]) ==>
              Order.Leq(names[k], names[i])
  {
    forall i | 0 <= i < k && Order.Leq(best, names[i]) ensures Order.Leq(names[k], names[i]) {
      if best != names[i] {
        Order.LessTransitive(names[k], best, names[i]);
      }
    }
  }

  function Collected(names: seq<string>, ts: seq<Task>): seq<NodeResult>
    requires |ts| == |names| && forall i :: 0 <= i < |ts| ==> ts[i].Finished? && ts[i].outcome.Patch?
  {
    if names == [] then []
    else [NodeResult(names[0], ts[0].outcome.changes)] + Collected(names[1..], ts[1..])
  }

  lemma {:induction false} CollectedIsOutputs(w: Workflow, names: seq<string>, ts: seq<Task>, s: State)
    requires |ts| == |names| && forall i :: 0 <= i < |ts| ==> ts[i].Finished? && ts[i].outcome.Patch?
    requires forall i :: 0 <= i < |ts| ==> ts[i].outcome == RunOf(w, names[i], s)
    ensures Collected(names, ts) == Outputs(w, names, s) && AllSucceed(w, names, s)
    decreases |names|
  {
    if names != [] {
      assert names == [names[0]] + names[1..];
      CollectedIsOutputs(w, names[1..], ts[1..], s);
    }
  }

  /** An interleaving of the batch ends so and reports node i. */
  ghost predicate Reports(w: Workflow, names: seq<string>, s: State, b: Tasks, i: nat) {
    && Reachable(w, names, s, b) && |b.ts| == |names| && (forall j :: 0 <= j < |names| ==> b.ts[j].Finished?)
    && IsReport(names, b.ts, i)
  }

  ghost predicate CanReport(w: Workflow, names: seq<string>, s: State, e: Failure) {
    exists b, i: nat :: Reports(w, names, s, b, i) && e == NodeFailed(names[i], b.ts[i].outcome.fault)
  }

  ghost predicate CanName(w: Workflow, names: seq<string>, s: State, id: string) {
    exists b, i: nat :: Reports(w, names, s, b, i) && names[i] == id
  }

  /** Runs one batch. Unless the caller cancels, it succeeds exactly when every node succeeds on the snapshot, whatever
      the interleaving and the concurrency cap, and then each node has run exactly once. */
  method RunBatch(w: Workflow, names: seq<string>, snap: State, gone: nat -> bool)
    returns (r: Result<seq<NodeResult>, Failure>, ghost ran: seq<string>)
    requires NoDup(names)
    ensures r.Ok? ==> AllSucceed(w, names, snap) && r.value == Outputs(w, names, snap)
    ensures r.Ok? ==> NoDup(ran) && forall n :: n in ran <==> n in names
    ensures r.Err? && r.error.ContextDone? ==> CallerLeaves(gone)
    ensures r.Err? ==> r.error.ContextDone? || (r.error.NodeFailed? && !AllSucceed(w, names, snap) && CanReport(w, names, snap, r.error))
  {
    hide RunOf, Reachable, May;
    var ts, contextDone;
    ghost var cancelled;
    ts, cancelled, contextDone, ran := RunTasks(w, names, snap, gone);
    var moment: nat := *;
    if contextDone || gone(moment) {
      if !contextDone {
        IsGone(gone, moment);
      }
      return Err(ContextDone), ran;
    }
    var bad := PickError(names, ts);
    if bad.Some? {
      ghost var i: nat :| IsReport(names, ts, i) && bad.value == NodeFailed(names[i], ts[i].outcome.fault);
      assert Reports(w, names, snap, Tasks(ts, cancelled), i);
      if cancelled {
        var j :| 0 <= j < |names| && RunOf(w, names[j], snap).Fail?;
        assert names[j] in names;
      }
      return Err(bad.value), ran;
    }
    assert !cancelled;
    CollectedIsOutputs(w, names, ts, snap);
    forall n | n in names ensures n in ran {
      var i :| 0 <= i < |names| && names[i] == n;
      assert ts[i].outcome.Patch?;
    }
    r := Ok(Collected(names, ts));
  }

  // ---- which node is reported

  lemma MoveKeeps(w: Workflow, names: seq<string>, s: State, b: Tasks, m: Move)
    requires BatchState(w, names, s, b.ts, HoldingCount(b.ts), b.cancelled, false) && Can(w, names, s, b, m)
    ensures BatchState(w, names, s, Do(b, m).ts, HoldingCount(Do(b, m).ts), Do(b, m).cancelled, false)
  {
    hide Genuine, RunOf;
    match m
    case Start(i) =>
      StartTask(w, names, s, b.ts, HoldingCount(b.ts), b.cancelled, false, i);
      TaskChange(b.ts, i, Holding);
    case End(i, o) => EndTask(w, names, s, b.ts, HoldingCount(b.ts), b.cancelled, false, i, o);
    case GiveUp(i) => EndTask(w, names, s, b.ts, HoldingCount(b.ts), b.cancelled, false, i, Fail(GAVE_UP));
  }

  lemma {:induction false} LeadsKeeps(w: Workflow, names: seq<string>, s: State, moves: seq<Move>, b: Tasks)
    requires Leads(w, names, s, moves, b)
    ensures BatchState(w, names, s, b.ts, HoldingCount(b.ts), b.cancelled, false)
    decreases |moves|
  {
    hide BatchState, Do, HoldingCount;
    if moves == [] {
      FreshState(w, names, s);
    } else {
      var init, last := moves[..|moves| - 1], moves[|moves| - 1];
      var a :| Leads(w, names, s, init, a) && Can(w, names, s, a, last) && b == Do(a, last);
      LeadsKeeps(w, names, s, init, a);
      MoveKeeps(w, names, s, a, last);
    }
  }

  lemma FreshState(w: Workflow, names: seq<string>, s: State)
    ensures var b := Fresh(|names|); BatchState(w, names, s, b.ts, HoldingCount(b.ts), b.cancelled, false)
  {
    FreshTasks(|names|);
  }

  /** The other direction: after one node's own failure the others can end, one by one, in any way they may. */
  lemma {:induction false} EndOneByOne(w: Workflow, names: seq<string>, s: State, x: nat, outs: seq<Outcome>, n: nat) returns (b: Tasks)
    requires x < |names| == |outs| && n <= |names| && outs[x].Fail?
    requires outs[x] == RunOf(w, names[x], s)
    requires forall i :: 0 <= i < |names| ==> May(w, RunOf(w, names[i], s), outs[i])
    ensures Reachable(w, names, s, b) && b.cancelled && |b.ts| == |names| && HoldingCount(b.ts) == 0
    ensures forall i :: 0 <= i < |names| ==> b.ts[i] == if i < n || i == x then Finished(outs[i]) else Idle
    decreases n
  {
    hide May, Reachable, RunOf, HoldingCount;
    if n == 0 {
      FreshTasks(|names|);
      ReachFresh(w, names, s);
      b := RunAlone(w, names, s, Fresh(|names|), x, outs[x]);
    } else {
      var a := EndOneByOne(w, names, s, x, outs, n - 1);
      b := a;
      if n - 1 != x {
        b := RunAlone(w, names, s, a, n - 1, outs[n - 1]);
      }
    }
  }

  /** While nobody holds a slot an idle node can take one and end. */
  lemma RunAlone(w: Workflow, names: seq<string>, s: State, a: Tasks, i: nat, o: Outcome) returns (b: Tasks)
    requires Reachable(w, names, s, a) && i < |names| == |a.ts| && HoldingCount(a.ts) == 0 && a.ts[i].Idle?
    requires May(w, RunOf(w, names[i], s), o) && (!a.cancelled ==> o == RunOf(w, names[i], s))
    ensures Reachable(w, names, s, b) && HoldingCount(b.ts) == 0
    ensures b == Tasks(a.ts[i := Finished(o)], a.cancelled || o.Fail?)
  {
    hide May, Reachable, RunOf, HoldingCount;
    TaskChange(a.ts, i, Holding);
    TaskChange(a.ts[i := Holding], i, Finished(o));
    assert a.ts[i := Holding][i := Finished(o)] == a.ts[i := Finished(o)];
    ReachOn(w, names, s, a, Start(i));
    ReachOn(w, names, s, Do(a, Start(i)), End(i, o));
    b := Do(Do(a, Start(i)), End(i, o));
  }

  /** The report of a batch does not depend on the interleaving: one node alone fails, with an error of its own, and it
      is the first unless all are polite; or there is but one node; or all are polite, the first one fails, and the
      others fail with cancellation errors if at all. */
  ghost predicate OneCulprit(w: Workflow, names: seq<string>, s: State) {
    exists x: nat :: x < |names| && Culprit(w, names, s, x)
  }

  ghost predicate Culprit(w: Workflow, names: seq<string>, s: State, x: nat)
    requires x < |names|
  {
    && RunOf(w, names[x], s).Fail?
    && (|| (&& !RunOf(w, names[x], s).fault.cancel && (w.polite || x == 0)
            && forall i :: 0 <= i < |names| && i != x ==> RunOf(w, names[i], s).Patch?)
        || (x == 0 && |names| == 1)
        || (x == 0 && w.polite && forall i :: 0 < i < |names| && RunOf(w, names[i], s).Fail? ==> RunOf(w, names[i], s).fault.cancel))
  }

  lemma RisingFirst(names: seq<string>, i: nat, j: nat)
    requires Rising(names) && i < |names| && j < |names| && Order.Leq(names[i], names[j])
    ensures i <= j
  {
    if j < i {
      Order.LessAsymmetric(names[j], names[i]);
    }
  }

  lemma CulpritReported(w: Workflow, names: seq<string>, s: State, x: nat, b: Tasks, i: nat)
    requires Rising(names) && x < |names| && Culprit(w, names, s, x) && Reports(w, names, s, b, i)
    ensures i == x
  {
    hide RunOf, Rising, Leads, Order.Leq;
    var moves :| Leads(w, names, s, moves, b);
    LeadsKeeps(w, names, s, moves, b);
    assert b.ts[x].Finished? && b.ts[i].Finished?;
    if !b.ts[i].outcome.fault.cancel && i != x && b.ts[x].outcome.Fail? && !b.ts[x].outcome.fault.cancel {
      RisingFirst(names, i, x);
    }
  }

  lemma OutsReport(w: Workflow, names: seq<string>, s: State, x: nat, outs: seq<Outcome>, i: nat)
    requires x < |names| == |outs| && outs[x].Fail? && outs[x] == RunOf(w, names[x], s)
    requires forall j :: 0 <= j < |names| ==> May(w, RunOf(w, names[j], s), outs[j])
    requires i < |outs| && IsReport(names, Ended(outs), i)
    ensures CanName(w, names, s, names[i])
  {
    hide RunOf, May, IsReport, Reachable;
    var b := EndOneByOne(w, names, s, x, outs, |names|);
    assert b.ts == Ended(outs);
    assert Reports(w, names, s, b, i);
  }

  function Ended(outs: seq<Outcome>): (ts: seq<Task>)
    ensures |ts| == |outs| && forall j :: 0 <= j < |ts| ==> ts[j] == Finished(outs[j])
  {
    seq(|outs|, j requires 0 <= j < |outs| => Finished(outs[j]))
  }

  // The endings that show the report to vary: x fails first, and then ...

  /** ... all others are cancelled: x is reported if its error is its own, the first node otherwise. */
  lemma AllCancelled(w: Workflow, names: seq<string>, s: State, x: nat)
    requires Rising(names) && x < |names| && RunOf(w, names[x], s).Fail?
    ensures CanName(w, names, s, names[if RunOf(w, names[x], s).fault.cancel then 0 else x])
  {
    hide RunOf, CanName;
    var own := RunOf(w, names[x], s);
    var outs := seq(|names|, i => if i == x then own else Fail(GAVE_UP));
    OutsReport(w, names, s, x, outs, if own.fault.cancel then 0 else x);
  }

  /** ... all others end as they do by themselves: if the first node succeeds, another one is reported. */
  lemma AllOwn(w: Workflow, names: seq<string>, s: State, x: nat) returns (i: nat)
    requires Rising(names) && x < |names| && RunOf(w, names[x], s).Fail? && RunOf(w, names[0], s).Patch?
    ensures 0 < i < |names| && CanName(w, names, s, names[i])
  {
    hide RunOf, CanName;
    var outs := seq(|names|, i requires 0 <= i < |names| => RunOf(w, names[i], s));
    i := SomeReport(names, outs, x);
    OutsReport(w, names, s, x, outs, i);
  }

  /** ... a node that is not polite ends as it likes, the others are cancelled. */
  lemma OneRude(w: Workflow, names: seq<string>, s: State, x: nat, y: nat, o: Outcome) returns (i: nat)
    requires Rising(names) && x < |names| && y < |names| && x != y && RunOf(w, names[x], s).Fail? && !w.polite
    ensures i < |names| && CanName(w, names, s, names[i])
    ensures o.Patch? ==> i != y
    ensures o.Fail? && !o.fault.cancel && (y == 0 || RunOf(w, names[x], s).fault.cancel) ==> i == y
  {
    hide RunOf, CanName;
    var own := RunOf(w, names[x], s);
    var outs := seq(|names|, i => if i == x then own else if i == y then o else Fail(GAVE_UP));
    if o.Fail? && !o.fault.cancel && (y == 0 || own.fault.cancel) {
      i := y;
    } else {
      i := SomeReport(names, outs, x);
    }
    OutsReport(w, names, s, x, outs, i);
  }

  /** Whenever something failed there is a node to report. */
  lemma SomeReport(names: seq<string>, outs: seq<Outcome>, x: nat) returns (i: nat)
    requires Rising(names) && x < |names| == |outs| && outs[x].Fail?
    ensures i < |outs| && IsReport(names, Ended(outs), i)
  {
    i := 0;
    while i < |outs| && !(outs[i].Fail? && !outs[i].fault.cancel)
      invariant i <= |outs|
      invariant forall j :: 0 <= j < i && outs[j].Fail? ==> outs[j].fault.cancel
    {
      i := i + 1;
    }
    if i == |outs| {
      i := 0;
      while outs[i].Patch?
        invariant i <= x
        invariant forall j :: 0 <= j < i ==> outs[j].Patch?
        decreases x - i
      {
        i := i + 1;
      }
    }
  }

  /** Two interleavings of the batch report different nodes. */
  ghost predicate ReportVaries(w: Workflow, names: seq<string>, s: State) {
    exists a, b :: CanName(w, names, s, a) && CanName(w, names, s, b) && a != b
  }

  lemma Varies(w: Workflow, names: seq<string>, s: State, i: nat, j: nat)
    requires Rising(names) && i < |names| && j < |names| && i != j
    requires CanName(w, names, s, names[i]) && CanName(w, names, s, names[j])
    ensures ReportVaries(w, names, s)
  {
    hide CanName;
    Order.LessAsymmetric(names[if i < j then i else j], names[if i < j then j else i]);
  }

  lemma PoliteVaries(w: Workflow, names: seq<string>, s: State, x: nat)
    requires Rising(names) && w.polite && x < |names| && RunOf(w, names[x], s).Fail? && !OneCulprit(w, names, s)
    ensures ReportVaries(w, names, s)
  {
    hide RunOf, Rising, CanName, ReportVaries;
    assert !Culprit(w, names, s, x) && !Culprit(w, names, s, 0);
    if !RunOf(w, names[x], s).fault.cancel {
      var y :| 0 <= y < |names| && y != x && RunOf(w, names[y], s).Fail?;
      assert !Culprit(w, names, s, y);
      AllCancelled(w, names, s, x);
      AllCancelled(w, names, s, y);
      if !RunOf(w, names[y], s).fault.cancel {
        Varies(w, names, s, x, y);
      } else if x != 0 {
        Varies(w, names, s, x, 0);
      } else {
        var z :| 0 < z < |names| && RunOf(w, names[z], s).Fail? && !RunOf(w, names[z], s).fault.cancel;
        AllCancelled(w, names, s, z);
        Varies(w, names, s, x, z);
      }
    } else if exists y :: 0 <= y < |names| && RunOf(w, names[y], s).Fail? && !RunOf(w, names[y], s).fault.cancel {
      var y :| 0 <= y < |names| && RunOf(w, names[y], s).Fail? && !RunOf(w, names[y], s).fault.cancel;
      AllCancelled(w, names, s, x);
      AllCancelled(w, names, s, y);
      if y != 0 {
        Varies(w, names, s, 0, y);
      } else {
        var z :| 0 < z < |names| && RunOf(w, names[z], s).Fail? && !RunOf(w, names[z], s).fault.cancel;
        AllCancelled(w, names, s, z);
        Varies(w, names, s, 0, z);
      }
    } else {
      assert RunOf(w, names[0], s).Patch?;
      AllCancelled(w, names, s, x);
      var i := AllOwn(w, names, s, x);
      Varies(w, names, s, 0, i);
    }
  }

  lemma RudeVaries(w: Workflow, names: seq<string>, s: State, x: nat)
    requires Rising(names) && !w.polite && x < |names| && RunOf(w, names[x], s).Fail? && !OneCulprit(w, names, s)
    ensures ReportVaries(w, names, s)
  {
    hide RunOf, Rising, CanName, ReportVaries;
    assert !Culprit(w, names, s, x) && !Culprit(w, names, s, 0);
    var own := RunOf(w, names[0], s);
    if own.Patch? {
      var i := AllOwn(w, names, s, x);
      var j := OneRude(w, names, s, x, 0, Fail(Fault(0, false)));
      Varies(w, names, s, 0, i);
    } else if own.fault.cancel {
      AllCancelled(w, names, s, 0);
      var j := OneRude(w, names, s, 0, 1, Fail(Fault(0, false)));
      Varies(w, names, s, 0, 1);
    } else {
      var y :| 0 <= y < |names| && y != 0 && RunOf(w, names[y], s).Fail?;
      AllCancelled(w, names, s, 0);
      var j := OneRude(w, names, s, y, 0, Patch([]));
      Varies(w, names, s, 0, j);
    }
  }

  /** Exactly when the node reported by a failing batch depends on the interleaving. */
  lemma ReportVariesIff(w: Workflow, names: seq<string>, s: State)
    requires Rising(names) && !AllSucceed(w, names, s)
    ensures ReportVaries(w, names, s) <==> !OneCulprit(w, names, s)
  {
    hide RunOf, Rising;
    if OneCulprit(w, names, s) {
      var x: nat :| x < |names| && Culprit(w, names, s, x);
      forall id | CanName(w, names, s, id) ensures id == names[x] {
        var b, i: nat :| Reports(w, names, s, b, i) && names[i] == id;
        CulpritReported(w, names, s, x, b, i);
      }
    } else {
      var n :| n in names && !RunOf(w, n, s).Patch?;
      var x :| 0 <= x < |names| && names[x] == n;
      if w.polite {
        PoliteVaries(w, names, s, x);
      } else {
        RudeVaries(w, names, s, x);
      }
    }
  }
}
