/** The event loop that runs a dependency graph: ready nodes are launched or skipped, completions are received
    one at a time, dependents are released, and every way out drains what is still owed. */
module Executor {
  import opened Context
  import opened Graph
  import opened Wrappers
  import opened DagState
  import opened Inputs
  import opened DagInvariant
  import Topo
  import Compensation
  import Validate
  import CriticalPath

  datatype End = Finished | ExitedEarly(id: Id) | NodeFailed(id: Id) | Cancelled

  /** What a run leaves behind: unless a failure rolls it back nothing is undone; otherwise a rollback was tried of
      exactly the nodes with a result that support it, each once and dependents first, and exactly those that
      succeeded are compensated. Every other node with a result is still done. A rollback succeeds exactly if one of the
      attempts that the node allows does, unless a cancellation cuts its retries. */
  ghost predicate Undone(g: seq<Node>, rollsBack: bool, rb: Compensation.Rollback, status: map<Id, Status>, results: map<Id, Payload>,
                         tried: seq<Id>, failed: set<Id>, cut: set<Id>)
  {
    && NoDup(tried) && Compensation.DependentsBefore(g, tried)
    && (forall x :: x in tried <==> rollsBack && x in results && x in rb.supported)
    && failed <= Elems(tried) && Compensation.Attempted(rb, tried, failed, cut)
    && (forall x :: x in results ==> x in status && status[x] == if x in tried && x !in failed then Compensated else Done)
    && (forall x :: x in status && x !in results ==> status[x] !in {Done, Compensated})
  }

  /** The item taken next: highest priority, first inserted among equals. */
  function Best(queue: seq<Item>): (i: nat)
    requires queue != []
    ensures i < |queue|
    ensures forall j :: 0 <= j < |queue| ==> queue[j].priority <= queue[i].priority
    ensures forall j :: 0 <= j < i ==> queue[j].priority < queue[i].priority
  {
    var last := |queue| - 1;
    if last == 0 then 0
    else
      var b := Best(queue[..last]);
      assert forall j :: 0 <= j < last ==> queue[..last][j] == queue[j];
      if queue[last].priority > queue[b].priority then last else b
  }

  /** Whatever has ended agrees with every complete result. */
  ghost predicate Foretells(job: Job, status: map<Id, Status>, results: map<Id, Payload>) {
    forall s2, r2, x :: IsOutcome(job, s2, r2) && x in Terminal(status) ==> AgreesAt(x, status, results, s2, r2)
  }

  /** Every node that was started, and only those, was run on the request it is to be run on, or had none; and its
      condition had let it pass. */
  ghost predicate AllServed(job: Job, results: map<Id, Payload>, started: seq<Id>, launched: map<Id, Payload>) {
    && (forall x :: x in started ==> Served(job, x, results, launched))
    && (forall x :: x in launched ==> x in started)
  }

  /** Every node has ended as its callbacks and the results below it demand. */
  ghost predicate AllAccounted(job: Job, status: map<Id, Status>, results: map<Id, Payload>) {
    status.Keys == Ids(job.g) && forall x :: x in status ==> Accounted(job, x, status, results)
  }

  /** x fails beyond recovery, and its failure is not tolerated. */
  ghost predicate Fatal(job: Job, x: Id, results: map<Id, Payload>) {
    x in Ids(job.g) && Breaks(job, x, results) && !Tolerated(job.cfg, x)
  }

  /** No result that a run came to would have ended it early: one on which the caller's test fires was restored from the
      checkpoint, or recovered from a failure, which nothing tests. */
  ghost predicate NoneExits(job: Job, results: map<Id, Payload>, launched: map<Id, Payload>, cancelled: bool) {
    forall x :: x in results && x !in job.restored && job.cfg.earlyExit(x, results[x]) ==>
      Recovers(job.cfg) && (!cancelled && x in launched ==> job.cfg.run(x, launched[x]).Failure?)
  }

  /** Every result that would end the run early is restored, recovered or in exit; what was recovered had failed. */
  ghost predicate Quiet(job: Job, results: map<Id, Payload>, launched: map<Id, Payload>, salvaged: set<Id>, cancelled: bool, exit: set<Id>) {
    && (forall x :: x in results && job.cfg.earlyExit(x, results[x]) ==> x in job.restored || x in salvaged || x in exit)
    && salvaged <= results.Keys
    && (salvaged != {} ==> Recovers(job.cfg))
    && (!cancelled ==> forall x :: x in salvaged && x in launched ==> job.cfg.run(x, launched[x]).Failure?)
  }

  /** A run takes itself to be cancelled only if its caller's context is, at some moment. */
  ghost predicate Excused(gone: nat -> bool, cancelled: bool) {
    cancelled ==> CallerLeaves(gone)
  }

  /** An item taken from the queue, and the queue it was taken from. */
  datatype Draw = Draw(item: Item, queue: seq<Item>)

  /** Nothing in the queue has a higher priority, and nothing ahead of the item the same. */
  ghost predicate FirstOfBest(d: Draw) {
    exists i ::
      && 0 <= i < |d.queue| && d.queue[i] == d.item
      && (forall j :: 0 <= j < |d.queue| ==> d.queue[j].priority <= d.item.priority)
      && (forall j :: 0 <= j < i ==> d.queue[j].priority < d.item.priority)
  }

  /** Every item waits with its node's priority, or 0. */
  ghost predicate Weighed(g: seq<Node>, cfg: Config, queue: seq<Item>) {
    forall j :: 0 <= j < |queue| ==>
      queue[j].id in Ids(g) && queue[j].priority == if queue[j].id in cfg.priority then cfg.priority[queue[j].id] else 0
  }

  ghost predicate WasDrawn(drawn: seq<Draw>, x: Id) {
    exists k :: 0 <= k < |drawn| && drawn[k].item.id == x
  }

  /** With priorities every node that starts was drawn from the queue when it was the first of the best there. */
  ghost predicate Ranked(g: seq<Node>, cfg: Config, started: seq<Id>, drawn: seq<Draw>, queue: seq<Item>) {
    && Weighed(g, cfg, queue)
    && (forall k :: 0 <= k < |drawn| ==> FirstOfBest(drawn[k]) && Weighed(g, cfg, drawn[k].queue))
    && (cfg.prioritized ==> forall x :: x in started ==> WasDrawn(drawn, x))
  }

  lemma RankedStart(g: seq<Node>, cfg: Config, started: seq<Id>, drawn: seq<Draw>, queue: seq<Item>, id: Id)
    requires Ranked(g, cfg, started, drawn, queue) && (cfg.prioritized ==> WasDrawn(drawn, id))
    ensures Ranked(g, cfg, started + [id], drawn, queue)
  {
    hide Weighed, FirstOfBest, WasDrawn;
  }

  lemma RankedAppend(g: seq<Node>, cfg: Config, started: seq<Id>, drawn: seq<Draw>, queue: seq<Item>, id: Id)
    requires Ranked(g, cfg, started, drawn, queue) && id in Ids(g)
    ensures Ranked(g, cfg, started, drawn, queue + [Item(id, if id in cfg.priority then cfg.priority[id] else 0)])
  {
    hide FirstOfBest, WasDrawn, Ids;
  }

  lemma RankedDraw(g: seq<Node>, cfg: Config, started: seq<Id>, drawn: seq<Draw>, queue: seq<Item>, i: nat)
    requires Ranked(g, cfg, started, drawn, queue) && i < |queue|
    requires forall j :: 0 <= j < |queue| ==> queue[j].priority <= queue[i].priority
    requires forall j :: 0 <= j < i ==> queue[j].priority < queue[i].priority
    ensures var more := drawn + [Draw(queue[i], queue)];
            Ranked(g, cfg, started, more, queue[..i] + queue[i + 1..]) && WasDrawn(more, queue[i].id)
  {
    hide Ids;
    var more := drawn + [Draw(queue[i], queue)];
    assert more[|drawn|].item.id == queue[i].id;
    forall x | x in started && cfg.prioritized ensures WasDrawn(more, x) {
      var k :| 0 <= k < |drawn| && drawn[k].item.id == x;
      assert more[k].item.id == x;
    }
  }

  lemma NoneRanked(g: seq<Node>, cfg: Config)
    ensures Ranked(g, cfg, [], [], [])
  {
  }

  lemma QuietLaunch(job: Job, results: map<Id, Payload>, launched: map<Id, Payload>, salvaged: set<Id>, cancelled: bool, exit: set<Id>,
                    id: Id, req: Payload)
    requires Quiet(job, results, launched, salvaged, cancelled, exit) && id !in results
    ensures Quiet(job, results, launched[id := req], salvaged, cancelled, exit)
  {
  }

  lemma QuietSettle(job: Job, results: map<Id, Payload>, launched: map<Id, Payload>, salvaged: set<Id>, cancelled: bool, id: Id, resp: Payload)
    requires Quiet(job, results, launched, salvaged, cancelled, {})
    ensures Quiet(job, results[id := resp], launched, salvaged, cancelled, if job.cfg.earlyExit(id, resp) then {id} else {})
  {
  }

  lemma QuietSalvage(job: Job, results: map<Id, Payload>, launched: map<Id, Payload>, salvaged: set<Id>, cancelled: bool, id: Id, resp: Payload)
    requires Quiet(job, results, launched, salvaged, cancelled, {}) && Recovers(job.cfg)
    requires !cancelled && id in launched ==> job.cfg.run(id, launched[id]).Failure?
    ensures Quiet(job, results[id := resp], launched, salvaged + {id}, cancelled, {})
  {
  }

  lemma QuietCancelled(job: Job, results: map<Id, Payload>, launched: map<Id, Payload>, salvaged: set<Id>, cancelled: bool, exit: set<Id>)
    requires Quiet(job, results, launched, salvaged, cancelled, exit)
    ensures Quiet(job, results, launched, salvaged, true, exit)
  {
  }

  lemma QuietAtStart(job: Job)
    ensures Quiet(job, job.restored, map[], {}, false, {})
  {
  }

  lemma QuietFinished(job: Job, results: map<Id, Payload>, launched: map<Id, Payload>, salvaged: set<Id>, cancelled: bool)
    requires Quiet(job, results, launched, salvaged, cancelled, {})
    ensures NoneExits(job, results, launched, cancelled)
  {
  }

  class Executor {
    const job: Job
    const rollback: Compensation.Rollback
    /** Whether the caller's context is found cancelled, at each moment it is looked at. */
    const gone: nat -> bool
    const nodeMap: map<Id, Node>
    const downstream: map<Id, seq<Id>>

    var status: map<Id, Status>
    var results: map<Id, Payload>
    var inDegree: map<Id, int>
    var pending: int
    var activePQ: int
    var queue: seq<Item>
    var doneCh: seq<Completion>
    var inFlight: map<Id, Payload>
    var cancelled: bool
    ghost var started: seq<Id>
    ghost var launched: map<Id, Payload>
    ghost var salvaged: set<Id>
    ghost var drawn: seq<Draw>

    ghost function St(): State
      reads this
    {
      State(status, results, inDegree, pending, activePQ, queue, doneCh, inFlight, started, launched, cancelled)
    }

    ghost predicate Fixed() {
      && ValidJob(job)
      && Topo.IsDownstream(job.g, downstream)
      && nodeMap.Keys == Ids(job.g) && forall x :: x in nodeMap ==> nodeMap[x].deps == DepsOf(job.g, x)
    }

    ghost predicate Valid(ph: Phase)
      reads this
    {
      Fixed() && Inv(job, St(), ph) && Quiet(job, results, launched, salvaged, cancelled, ph.exit)
      && Ranked(job.g, job.cfg, started, drawn, queue)
      && Excused(gone, cancelled)
    }

    /** Nodes not looked at yet. */
    ghost function Waiting(): nat
      reads this
    {
      |With(status, Pending)|
    }

    function UpResults(id: Id): map<Id, Payload>
      requires id in nodeMap
      reads this
    {
      map d | d in nodeMap[id].deps && d in results :: results[d]
    }

    lemma UpResultsIs(id: Id)
      requires Fixed() && id in nodeMap
      ensures id in Ids(job.g) && nodeMap[id].deps == DepsOf(job.g, id)
      ensures UpResults(id) == Upstream(job.g, id, results)
    {
    }

    // ---- scheduling

    /** Decrements the dependents of an ended node and enqueues those that become ready. */
    method PropagateDownstream(id: Id, ghost ph: Phase)
      requires Valid(ph.(debt := ph.debt + multiset(Topo.Downstream(job.g, id))))
      modifies this
      ensures Valid(ph) && Waiting() <= old(Waiting()) && pending <= old(pending)
      ensures job.cfg.prioritized ==> status == old(status) && activePQ == old(activePQ)
      decreases |With(status, Pending)|, 3
    {
      hide Excused, Ranked, Quiet, Inv, Fixed, With;
      LookupIs(id);
      var ds := Topo.Lookup(downstream, id);
      assert ds[0..] == ds;
      for k := 0 to |ds|
        invariant Valid(ph.(debt := ph.debt + multiset(ds[k..])))
        invariant Waiting() <= old(Waiting()) && pending <= old(pending)
        invariant job.cfg.prioritized ==> status == old(status) && activePQ == old(activePQ)
      {
        ReleaseOne(id, ds, k, ph);
      }
      assert ds[|ds|..] == [];
      assert ph.debt + multiset(ds[|ds|..]) == ph.debt;
    }

    lemma LookupIs(id: Id)
      requires Fixed()
      ensures Topo.Lookup(downstream, id) == Topo.Downstream(job.g, id)
      ensures forall x :: x in Topo.Downstream(job.g, id) ==> x in Ids(job.g)
    {
      forall x | x in Topo.Downstream(job.g, id) ensures x in Ids(job.g) {
        Topo.DownstreamIsEdge(job.g, id, x);
        EdgeIsDep(job.g, id, x);
      }
    }

    method ReleaseOne(ghost id: Id, ds: seq<Id>, k: nat, ghost ph: Phase)
      requires k < |ds| && ds == Topo.Downstream(job.g, id)
      requires Valid(ph.(debt := ph.debt + multiset(ds[k..])))
      modifies this
      ensures Valid(ph.(debt := ph.debt + multiset(ds[k + 1..])))
      ensures Waiting() <= old(Waiting()) && pending <= old(pending)
      ensures job.cfg.prioritized ==> status == old(status) && activePQ == old(activePQ)
      decreases |With(status, Pending)|, 2
    {
      hide Excused, Ranked, Quiet, Inv, Fixed, With, Topo.Downstream, Ids, ReadyToLeave;
      LookupIs(id);
      var x := ds[k];
      ghost var before := ph.(debt := ph.debt + multiset(ds[k..]));
      ghost var after := ph.(debt := ph.debt + multiset(ds[k + 1..]));
      assert before.debt - multiset{x} == after.debt by {
        assert ds[k..] == [x] + ds[k + 1..];
      }
      var ready := PayOne(x, before);
      if ready {
        EnqueueReady(x, after.(todo := after.todo + {x}));
        TodoMayGrow(job, St(), after.(todo := after.todo + {x} - {x}), after.todo);
      } else {
        assert after.todo + {} == after.todo;
      }
    }

    /** Pays one decrement owed to x; tells whether x has become ready. */
    method PayOne(x: Id, ghost ph: Phase) returns (ready: bool)
      requires Valid(ph) && x in ph.debt && x in Ids(job.g)
      modifies this`inDegree
      ensures Valid(ph.(debt := ph.debt - multiset{x}, todo := ph.todo + if ready then {x} else {}))
      ensures ready ==> ReadyToLeave(job, St(), x)
    {
      hide Excused, Ranked, Quiet, Inv, Fixed, Ids, ReadyToLeave;
      Decrement(job, St(), ph, x);
      inDegree := inDegree[x := inDegree[x] - 1];
      ready := inDegree[x] == 0 && status[x] == Pending;
      if ready {
        assert inDegree[x := 1] == old(inDegree);
        NewlyReady(ph, x);
      }
    }

    /** A node whose in-degree was still positive a moment ago is not in the queue. */
    lemma NewlyReady(before: Phase, x: Id)
      requires x in inDegree && x in status && status[x] == Pending && inDegree[x] == 0
      requires Inv(job, St().(inDegree := inDegree[x := 1]), before)
      ensures ReadyToLeave(job, St(), x)
    {
    }

    /** A ready node goes to the priority queue, or is scheduled at once. */
    method EnqueueReady(id: Id, ghost ph: Phase)
      requires Valid(ph) && ReadyToLeave(job, St(), id)
      modifies this
      ensures Valid(ph.(todo := ph.todo - {id})) && Waiting() <= old(Waiting()) && pending <= old(pending)
      ensures job.cfg.prioritized ==> status == old(status) && activePQ == old(activePQ)
      ensures job.cfg.prioritized ==> QueueIds(queue) == old(QueueIds(queue)) + {id}
      decreases |With(status, Pending)|, 1
    {
      hide Excused, Ranked, Quiet, Inv, With, ReadyToLeave, QueueIds;
      if job.cfg.prioritized {
        var priority := if id in job.cfg.priority then job.cfg.priority[id] else 0;
        Enqueue(job, St(), ph, id, priority);
        IsKnown(id, ph);
        RankedAppend(job.g, job.cfg, started, drawn, queue, id);
        QueueAppend(queue, Item(id, priority));
        queue := queue + [Item(id, priority)];
      } else {
        ScheduleReady(id, ph);
      }
    }

    lemma IsKnown(id: Id, ph: Phase)
      requires Inv(job, St(), ph) && ReadyToLeave(job, St(), id)
      ensures id in Ids(job.g)
    {
      hide Degrees, Counted, Owed, Queued, Started, Truthful, Fed, Served;
    }

    /** A ready node is skipped when its condition fails, which may cascade; otherwise it starts. */
    method ScheduleReady(id: Id, ghost ph: Phase)
      requires Valid(ph) && ReadyToLeave(job, St(), id) && HasRoom(job.cfg, status, ph.popped)
      requires job.cfg.prioritized ==> WasDrawn(drawn, id)
      modifies this
      ensures id in status
      ensures Valid(ph.(todo := ph.todo - {id},
                        uncounted := if job.cfg.prioritized && status[id] == Running then ph.uncounted + 1 else ph.uncounted))
      ensures Waiting() < old(Waiting()) && pending <= old(pending)
      ensures job.cfg.prioritized ==> activePQ == old(activePQ)
      decreases |With(status, Pending)|, 0
    {
      hide Excused, Ranked, Quiet, Inv, With, ReadyToLeave, Fixed, HasRoom, Topo.Downstream, Carries, Reports, MayRun,
           NodeInput, ConditionHolds, NoInput;
      ScheduleFacts(id, ph);
      if !ConditionHolds(job.cfg, id, UpResults(id)) {
        SkipReady(job, St(), ph, id);
        WaitingShrinks(status, id, Skipped);
        status := status[id := Skipped];
        pending := pending - 1;
        PropagateDownstream(id, ph.(todo := ph.todo - {id}));
        InvKeys(job, St(), ph.(todo := ph.todo - {id}));
        return;
      }
      StartNode(id, ph);
    }

    /** A node whose condition holds is launched on its request; if that cannot be built its failure is reported. */
    method StartNode(id: Id, ghost ph: Phase)
      requires Valid(ph) && ReadyToLeave(job, St(), id) && HasRoom(job.cfg, status, ph.popped)
      requires MayRun(job, id, results) && id in nodeMap && id in status && status[id] == Pending && ValidJob(job)
      requires job.cfg.prioritized ==> WasDrawn(drawn, id)
      modifies this
      ensures id in status && status[id] == Running
      ensures Valid(ph.(todo := ph.todo - {id}, uncounted := if job.cfg.prioritized then ph.uncounted + 1 else ph.uncounted))
      ensures Waiting() < old(Waiting()) && pending == old(pending) && activePQ == old(activePQ)
    {
      hide Excused, Ranked, Quiet, Inv, With, ReadyToLeave, Fixed, HasRoom, Topo.Downstream, Carries, Reports, MayRun,
           NodeInput, ConditionHolds, NoInput;
      WaitingShrinks(status, id, Running);
      match NodeInput(job.cfg, job.request, id, nodeMap[id].deps, UpResults(id))
      case None =>
        RoomToSend(job, St(), ph, id);
        FailsToBuild(id);
        ReportReady(job, St(), ph, id);
        RankedStart(job.g, job.cfg, started, drawn, queue, id);
        status := status[id := Running];
        started := started + [id];
        doneCh := doneCh + [Completion(id, Failure(false))];
        LeaveUncounted(ph.(todo := ph.todo - {id}));
      case Some(req) =>
        BuildsRequest(id, req);
        Launch(id, req, ph);
    }

    /** The node's goroutine is on its way. */
    method Launch(id: Id, req: Payload, ghost ph: Phase)
      requires Valid(ph) && ReadyToLeave(job, St(), id) && HasRoom(job.cfg, status, ph.popped)
      requires MayRun(job, id, results) && Carries(job, id, req, results) && id in status && status[id] == Pending && ValidJob(job)
      requires job.cfg.prioritized ==> WasDrawn(drawn, id)
      modifies this`status, this`started, this`launched, this`inFlight
      ensures status == old(status)[id := Running]
      ensures Valid(ph.(todo := ph.todo - {id}, uncounted := if job.cfg.prioritized then ph.uncounted + 1 else ph.uncounted))
    {
      hide Excused, Ranked, Quiet, Inv, ReadyToLeave, Fixed, HasRoom, Topo.Downstream, Carries, MayRun, WasDrawn;
      RankedStart(job.g, job.cfg, started, drawn, queue, id);
      LaunchReady(job, St(), ph, id, req);
      NoResultYet(id, ph);
      QuietLaunch(job, results, launched, salvaged, cancelled, ph.exit, id, req);
      status := status[id := Running];
      started := started + [id];
      launched := launched[id := req];
      inFlight := inFlight[id := req];
      LeaveUncounted(ph.(todo := ph.todo - {id}));
    }

    lemma NoResultYet(id: Id, ph: Phase)
      requires Inv(job, St(), ph) && id in status && status[id] == Pending
      ensures id !in results
    {
      hide Degrees, Counted, Owed, Queued, Started, Truthful, Fed, Served;
    }

    lemma ScheduleFacts(id: Id, ph: Phase)
      requires Valid(ph) && ReadyToLeave(job, St(), id)
      ensures id in nodeMap && id in Ids(job.g) && id in status && status[id] == Pending && ValidJob(job)
      ensures MayRun(job, id, results) <==> ConditionHolds(job.cfg, id, UpResults(id))
    {
      InvKeys(job, St(), ph);
      UpResultsIs(id);
    }

    lemma FailsToBuild(id: Id)
      requires Fixed() && id in nodeMap && NodeInput(job.cfg, job.request, id, nodeMap[id].deps, UpResults(id)) == None
      ensures Reports(job, Completion(id, Failure(false)), results) && NoInput(job, id, results)
    {
      UpResultsIs(id);
      InputIsFed(job, id, results, job.request);
    }

    lemma BuildsRequest(id: Id, req: Payload)
      requires Fixed() && id in nodeMap && NodeInput(job.cfg, job.request, id, nodeMap[id].deps, UpResults(id)) == Some(req)
      ensures Carries(job, id, req, results)
    {
      UpResultsIs(id);
    }

    lemma LeaveUncounted(ph: Phase)
      requires Inv(job, St(), ph.(uncounted := ph.uncounted + 1))
      ensures !job.cfg.prioritized ==> Inv(job, St(), ph)
    {
      if !job.cfg.prioritized {
        Uncounted(job, St(), ph.(uncounted := ph.uncounted + 1), ph.uncounted);
      }
    }

    /** Launches waiting nodes, best first, up to the concurrency limit. */
    method DrainPQ()
      requires Valid(IDLE)
      modifies this
      ensures Valid(IDLE) && Drained(job.cfg, queue, activePQ) && pending <= old(pending)
    {
      hide Excused, Ranked, Quiet, Inv, With, ReadyToLeave, Fixed, HasRoom, WasDrawn;
      if !job.cfg.prioritized {
        QueueUnused();
        return;
      }
      while queue != [] && !(job.cfg.maxConcurrency > 0 && activePQ >= job.cfg.maxConcurrency)
        invariant Valid(IDLE) && pending <= old(pending)
        decreases Waiting()
      {
        var id := TakeBest();
        ghost var ph := IDLE.(todo := {id});
        assert ph.todo - {id} == {};
        RoomBelowLimit(job, St(), ph);
        ScheduleReady(id, ph);
        if status[id] == Running {
          CountStarted(job, St(), 1);
          activePQ := activePQ + 1;
        }
      }
    }

    /** Takes the first of the best from the queue. */
    method TakeBest() returns (id: Id)
      requires Valid(IDLE) && queue != []
      modifies this`queue, this`drawn
      ensures Valid(IDLE.(todo := {id})) && ReadyToLeave(job, St(), id) && WasDrawn(drawn, id)
    {
      hide Excused, Ranked, Quiet, Inv, ReadyToLeave, Fixed, WasDrawn;
      var i := Best(queue);
      id := queue[i].id;
      Take(job, St(), IDLE, i);
      assert IDLE.todo + {id} == {id};
      RankedDraw(job.g, job.cfg, started, drawn, queue, i);
      drawn := drawn + [Draw(queue[i], queue)];
      queue := queue[..i] + queue[i + 1..];
    }

    lemma QueueUnused()
      requires Inv(job, St(), IDLE) && !job.cfg.prioritized
      ensures Drained(job.cfg, queue, activePQ)
    {
    }

    // ---- the world outside the loop

    /** The caller's context may be cancelled at any moment. */
    method MaybeCancel(ghost ph: Phase)
      requires Valid(ph)
      modifies this`cancelled
      ensures Valid(ph) && (old(cancelled) ==> cancelled)
    {
      hide Ranked, Quiet, Fixed, Shaped, Degrees, Counted, Owed, Queued, Started, Truthful, Fed, Served;
      var k: nat := *;
      if gone(k) {
        IsGone(gone, k);
        QuietCancelled(job, results, launched, salvaged, cancelled, ph.exit);
        cancelled := true;
      }
    }

    /** Some goroutine ends and sends its completion; a cancellation makes its outcome arbitrary. */
    method SendOne()
      requires Valid(IDLE) && inFlight != map[]
      modifies this`inFlight, this`doneCh
      ensures Valid(IDLE) && doneCh != [] && |inFlight| < old(|inFlight|)
    {
      hide Excused, Ranked, Quiet, Fixed, Inv;
      var x :| x in inFlight;
      var o := job.cfg.run(x, inFlight[x]);
      if cancelled {
        var any: Outcome := *;
        o := any;
      }
      assert ValidJob(job) by { IsValidJob(); }
      RoomToSend(job, St(), IDLE, x);
      Finish(job, St(), IDLE, x, o);
      assert |inFlight.Keys - {x}| == |inFlight.Keys| - 1;
      assert (inFlight - {x}).Keys == inFlight.Keys - {x};
      inFlight := inFlight - {x};
      doneCh := doneCh + [Completion(x, o)];
    }

    lemma IsValidJob()
      requires Fixed()
      ensures ValidJob(job)
    {
    }

    /** Any number of goroutines end, in any order. */
    method Goroutines()
      requires Valid(IDLE)
      modifies this`inFlight, this`doneCh, this`cancelled
      ensures Valid(IDLE) && (old(cancelled) ==> cancelled) && (old(doneCh) != [] ==> doneCh != [])
      ensures |inFlight| <= old(|inFlight|)
    {
      hide Excused, Ranked, Quiet, Fixed, Inv;
      MaybeCancel(IDLE);
      var more: bool := *;
      while more && inFlight != map[]
        invariant Valid(IDLE) && (old(cancelled) ==> cancelled) && (old(doneCh) != [] ==> doneCh != [])
        invariant |inFlight| <= old(|inFlight|)
        decreases |inFlight|
      {
        SendOne();
        MaybeCancel(IDLE);
        more := *;
      }
    }

    // ---- teardown

    /** Receives as many completions as are still owed. It never waits in vain and leaves none behind. */
    method DrainDoneCh(running: nat)
      requires running == |inFlight| + |doneCh|
      modifies this`inFlight, this`doneCh
      ensures inFlight == map[] && doneCh == []
    {
      var left := running;
      while left > 0
        invariant left == |inFlight| + |doneCh|
      {
        if doneCh == [] {
          assert inFlight != map[];
          var x :| x in inFlight;
          var o: Outcome := *;
          assert (inFlight - {x}).Keys == inFlight.Keys - {x};
          inFlight := inFlight - {x};
          doneCh := doneCh + [Completion(x, o)];
        }
        doneCh := doneCh[1..];
        left := left - 1;
      }
    }

    /** Counts the nodes whose completion has not been received, and drains exactly those. */
    method AbortRunning(ghost ph: Phase)
      requires Valid(ph) && ph.popped !! With(status, Running)
      modifies this`inFlight, this`doneCh
      ensures inFlight == map[] && doneCh == []
    {
      hide Excused, Ranked, Quiet, Fixed, Shaped, Degrees, Counted, Queued, Started, Truthful, Fed, Served;
      var running := |set x | x in status && status[x] == Running|;
      assert (set x | x in status && status[x] == Running) == With(status, Running) - ph.popped;
      OwedCount(status, inFlight.Keys, doneCh, ph.popped);
      assert |inFlight| == |inFlight.Keys|;
      DrainDoneCh(running);
    }

    // ---- completions

    ghost predicate Stops(end: End, tried: seq<Id>, failed: set<Id>, cut: set<Id>)
      reads this
    {
      var rollsBack := end.NodeFailed? && job.cfg.strategy == Compensate && job.cfg.compensation.Some?;
      Halted(end) && (cut != {} ==> CallerLeaves(gone)) && Undone(job.g, rollsBack, rollback, status, results, tried, failed, cut)
    }

    ghost predicate Halted(end: End)
      reads this
    {
      && inFlight == map[] && doneCh == []
      && NoDup(started) && (forall x :: x in started ==> x !in job.restored)
      && AllServed(job, results, started, launched)
      && Ranked(job.g, job.cfg, started, drawn, queue)
      && Excused(gone, cancelled)
      && (end.NodeFailed? && !cancelled ==> Fatal(job, end.id, results))
      && (end.NodeFailed? && !cancelled ==> forall s2, r2 :: !IsOutcome(job, s2, r2))
      && (end.ExitedEarly? ==> end.id in results && job.cfg.earlyExit(end.id, results[end.id]))
      && (end.ExitedEarly? && !cancelled ==> Foretells(job, status, results))
      && (end.Cancelled? ==> cancelled)
      && !end.Finished?
    }

    lemma StartedOnce(ph: Phase)
      requires Inv(job, St(), ph)
      ensures NoDup(started) && (forall x :: x in started ==> x !in job.restored)
      ensures AllServed(job, results, started, launched)
    {
      hide Shaped, Degrees, Counted, Owed, Queued, Truthful, Served, DepsTerminal;
    }

    lemma NothingUndone(ph: Phase)
      requires Inv(job, St(), ph)
      ensures Undone(job.g, false, rollback, status, results, [], {}, {})
    {
      hide Degrees, Counted, Owed, Queued, Started, Truthful, Walk, Fed, Served;
    }

    lemma SoFarRight(ph: Phase)
      requires Fixed() && Inv(job, St(), ph) && !cancelled
      ensures Foretells(job, status, results)
    {
      hide Excused, Ranked, Quiet, Inv, IsOutcome, AgreesAt, Terminal, ValidJob;
      IsValidJob();
      forall s2, r2, x | IsOutcome(job, s2, r2) && x in Terminal(status) ensures AgreesAt(x, status, results, s2, r2) {
        EndedAgree(job, St(), ph, s2, r2, x);
      }
    }

    /** Deals with one completion: the run goes on (None) or ends. */
    method HandleCompletion(comp: Completion) returns (end: Option<End>, ghost tried: seq<Id>, ghost failed: set<Id>, ghost cut: set<Id>)
      requires Valid(IDLE.(popped := {comp.id})) && comp.id in status && status[comp.id] == Running
      requires !cancelled ==> Reports(job, comp, results) && MayRun(job, comp.id, results)
      modifies this
      ensures end.None? ==> Valid(IDLE) && Drained(job.cfg, queue, activePQ) && pending <= old(pending)
      ensures end.Some? ==> Stops(end.value, tried, failed, cut)
    {
      match comp.outcome
      case Failure(interrupted) => end, tried, failed, cut := HandleNodeError(comp.id, interrupted);
      case Success(resp) => end, tried, failed, cut := HandleNodeSuccess(comp.id, resp);
    }

    /** After the node has ended, its dependents are released and waiting nodes launched. */
    method Continue(id: Id)
      requires Valid(IDLE.(debt := multiset(Topo.Downstream(job.g, id))))
      modifies this
      ensures Valid(IDLE) && Drained(job.cfg, queue, activePQ) && pending <= old(pending)
    {
      hide Excused, Ranked, Quiet, Inv, Fixed, Topo.Downstream;
      assert multiset{} + multiset(Topo.Downstream(job.g, id)) == multiset(Topo.Downstream(job.g, id));
      PropagateDownstream(id, IDLE);
      DrainPQ();
    }

    method HandleNodeSuccess(id: Id, resp: Payload) returns (end: Option<End>, ghost tried: seq<Id>, ghost failed: set<Id>, ghost cut: set<Id>)
      requires Valid(IDLE.(popped := {id})) && id in status && status[id] == Running
      requires !cancelled ==> Reports(job, Completion(id, Success(resp)), results) && MayRun(job, id, results)
      modifies this
      ensures end.None? ==> Valid(IDLE) && Drained(job.cfg, queue, activePQ) && pending <= old(pending)
      ensures end.Some? ==> Stops(end.value, tried, failed, cut)
    {
      hide Excused, Ranked, Quiet, Inv, Fixed, Reports, MayRun, JobVerdict, Topo.Downstream, IsOutcome, Drained,
           Undone, Foretells;
      tried, failed, cut := [], {}, {};
      IsValidJob();
      if !cancelled {
        SuccessVerdict(id, resp);
      }
      Settle(job, St(), id, resp);
      QuietSettle(job, results, launched, salvaged, cancelled, id, resp);
      status := status[id := Done];
      results := results[id := resp];
      ghost var ph := IDLE.(debt := multiset(Topo.Downstream(job.g, id)), exit := if job.cfg.earlyExit(id, resp) then {id} else {});
      Exiting(IDLE.(debt := multiset(Topo.Downstream(job.g, id))), ph.exit);
      StartedOnce(ph);
      NothingUndone(ph);
      if job.cfg.earlyExit(id, resp) {
        if !cancelled {
          SoFarRight(ph);
        }
        AbortRunning(ph);
        end := Some(ExitedEarly(id));
        return;
      }
      MaybeCancel(ph);
      if cancelled {
        AbortRunning(ph);
        end := Some(Cancelled);
        return;
      }
      Continue(id);
      end := None;
    }

    lemma Exiting(ph: Phase, exit: set<Id>)
      requires Inv(job, St(), ph)
      ensures Inv(job, St(), ph.(exit := exit))
    {
      hide Shaped, Degrees, Counted, Owed, Queued, Started, Truthful, Fed, Served;
    }

    lemma SuccessVerdict(id: Id, resp: Payload)
      requires Reports(job, Completion(id, Success(resp)), results) && MayRun(job, id, results)
      ensures id in Ids(job.g) && JobVerdict(job, id, results) == Settles(resp)
    {
    }

    lemma ErrorVerdict(id: Id, interrupted: bool)
      requires Fixed() && id in nodeMap
      requires Reports(job, Completion(id, Failure(interrupted)), results) && MayRun(job, id, results)
      ensures id in Ids(job.g)
      ensures JobVerdict(job, id, results) ==
              match Recovered(job.cfg, job.request, id, nodeMap[id].deps, UpResults(id), interrupted)
              case Some(resp) => Settles(resp)
              case None => FailureVerdict(job.cfg, id)
    {
      UpResultsIs(id);
    }

    /** Forward recovery runs the failed node's runner again; it is not tried on a suspension. */
    method TryForwardRecovery(id: Id, interrupted: bool) returns (r: Option<Payload>)
      requires Fixed() && id in nodeMap
      requires Valid(IDLE.(popped := {id}))
      modifies this`cancelled
      ensures Valid(IDLE.(popped := {id}))
      ensures old(cancelled) ==> cancelled
      ensures r.Some? ==> Recovers(job.cfg)
      ensures !cancelled ==> r == Recovered(job.cfg, job.request, id, nodeMap[id].deps, UpResults(id), interrupted)
    {
      hide Excused, Ranked, Quiet, Inv, Valid, Fixed, NodeInput;
      r := None;
      if job.cfg.compensation == Some(ForwardRecovery) && job.cfg.strategy == Compensate && !interrupted {
        match NodeInput(job.cfg, job.request, id, nodeMap[id].deps, UpResults(id))
        case None =>
        case Some(req) =>
          MaybeCancel(IDLE.(popped := {id}));
          r := job.cfg.recover(id, req);
          if cancelled {
            var any: Option<Payload> := *;
            r := any;
          }
      }
    }

    /** Forward recovery if it is configured and succeeds; otherwise the run fails and is rolled back. */
    method RecoverOrUndo(id: Id, interrupted: bool) returns (end: Option<End>, ghost tried: seq<Id>, ghost failed: set<Id>, ghost cut: set<Id>)
      requires Valid(IDLE.(popped := {id})) && id in Ids(job.g) && id in nodeMap && id in status && status[id] == Failed
      requires job.cfg.strategy == Compensate && job.cfg.compensation.Some?
      requires !cancelled ==>
                 (JobVerdict(job, id, results) ==
                  match Recovered(job.cfg, job.request, id, nodeMap[id].deps, UpResults(id), interrupted)
                  case Some(resp) => Settles(resp)
                  case None => FailureVerdict(job.cfg, id))
      requires !cancelled && id in launched ==> job.cfg.run(id, launched[id]).Failure?
      modifies this
      ensures end.None? ==> Valid(IDLE) && Drained(job.cfg, queue, activePQ) && pending <= old(pending)
      ensures end.Some? ==> Stops(end.value, tried, failed, cut)
    {
      hide Excused, Ranked, Quiet, Inv, Fixed, JobVerdict, Topo.Downstream, IsOutcome, Drained, Recovered, With, Ids,
           Undone;
      tried, failed, cut := [], {}, {};
      ghost var ph := IDLE.(popped := {id});
      IsValidJob();
      FailedIsNotRunning(id);
      var r := TryForwardRecovery(id, interrupted);
      if r.Some? {
        Settle(job, St(), id, r.value);
        QuietSalvage(job, results, launched, salvaged, cancelled, id, r.value);
        status := status[id := Done];
        results := results[id := r.value];
        salvaged := salvaged + {id};
        Continue(id);
        end := None;
        return;
      }
      NothingUndone(ph);
      InvKeys(job, St(), ph);
      end := FailRun(id);
      tried, failed, cut := RollBack();
    }

    method HandleNodeError(id: Id, interrupted: bool) returns (end: Option<End>, ghost tried: seq<Id>, ghost failed: set<Id>, ghost cut: set<Id>)
      requires Valid(IDLE.(popped := {id})) && id in status && status[id] == Running
      requires !cancelled ==> Reports(job, Completion(id, Failure(interrupted)), results) && MayRun(job, id, results)
      modifies this
      ensures end.None? ==> Valid(IDLE) && Drained(job.cfg, queue, activePQ) && pending <= old(pending)
      ensures end.Some? ==> Stops(end.value, tried, failed, cut)
    {
      hide Excused, Ranked, Quiet, Inv, Fixed, Reports, MayRun, JobVerdict, Topo.Downstream, IsOutcome, Drained,
           Recovered, With, Ids, Undone;
      tried, failed, cut := [], {}, {};
      IsValidJob();
      InvKeys(job, St(), IDLE.(popped := {id}));
      KnownNode(id);
      if !cancelled {
        ErrorVerdict(id, interrupted);
        FailedOnLaunch(id, interrupted);
      }
      MarkFailed(job, St(), id);
      status := status[id := Failed];
      if job.cfg.strategy == Compensate && job.cfg.compensation.Some? {
        end, tried, failed, cut := RecoverOrUndo(id, interrupted);
        return;
      }
      RecoveredOnlyCompensating(id, interrupted);
      if job.cfg.strategy == Abort || id !in job.cfg.optional {
        FailedIsNotRunning(id);
        NothingUndone(IDLE.(popped := {id}));
        end := FailRun(id);
        return;
      }
      SkipFailed(job, St(), id);
      status := status[id := Skipped];
      Continue(id);
      end := None;
    }

    lemma RecoveredOnlyCompensating(id: Id, interrupted: bool)
      requires id in nodeMap && !(job.cfg.strategy == Compensate && job.cfg.compensation.Some?)
      ensures Recovered(job.cfg, job.request, id, nodeMap[id].deps, UpResults(id), interrupted) == None
    {
    }

    lemma FailedOnLaunch(id: Id, interrupted: bool)
      requires Inv(job, St(), IDLE.(popped := {id})) && Reports(job, Completion(id, Failure(interrupted)), results)
      ensures id in launched ==> job.cfg.run(id, launched[id]).Failure?
    {
      hide Shaped, Degrees, Counted, Owed, Queued, Started, Truthful, NodeInput, FedWith, Blocked;
      if id in launched {
        assert Served(job, id, results, launched);
        InputIsFed(job, id, results, launched[id]);
      }
    }

    lemma KnownNode(id: Id)
      requires Fixed() && id in Ids(job.g)
      ensures id in nodeMap
    {
    }

    lemma FailedIsNotRunning(id: Id)
      requires id in status && status[id] == Failed
      ensures {id} !! With(status, Running)
    {
    }

    lemma IsFatal(id: Id)
      requires id in Ids(job.g) && JobVerdict(job, id, results) == StopsRun
      ensures Fatal(job, id, results)
    {
      hide Breaks, JobVerdict, Tolerated;
      VerdictMeans(job, id, results);
    }

    /** The failure of id ends the run. */
    method FailRun(id: Id) returns (end: Option<End>)
      requires Valid(IDLE.(popped := {id})) && {id} !! With(status, Running)
      requires !cancelled ==> id in Ids(job.g) && JobVerdict(job, id, results) == StopsRun
      modifies this`inFlight, this`doneCh
      ensures end == Some(NodeFailed(id)) && Halted(NodeFailed(id))
    {
      hide Excused, Ranked, Quiet, Inv, Fixed, JobVerdict, IsOutcome, With;
      IsValidJob();
      StartedOnce(IDLE.(popped := {id}));
      if !cancelled {
        StopIsFinal(job, St(), id);
        IsFatal(id);
      }
      AbortRunning(IDLE.(popped := {id}));
      end := Some(NodeFailed(id));
    }

    /** After the drain, completed nodes are rolled back. */
    method RollBack() returns (ghost tried: seq<Id>, ghost failed: set<Id>, ghost cut: set<Id>)
      requires ValidJob(job) && status.Keys == Ids(job.g)
      requires Undone(job.g, false, rollback, status, results, [], {}, {})
      modifies this`status
      ensures Undone(job.g, true, rollback, status, results, tried, failed, cut) && (cut != {} ==> CallerLeaves(gone))
    {
      hide Acyclic, KnownDeps, UniqueIds, Compensation.DependentsBefore;
      var status', tried', failed', cut' := Compensation.BackwardCompensation(job.g, rollback, gone, status, results);
      assert forall x :: x in tried' <==> x in Elems(tried');
      status := status';
      tried, failed, cut := tried', failed', cut';
    }

    // ---- a whole run

    /** Looks at every node once and enqueues those that are ready. */
    method Start()
      requires Valid(IDLE.(todo := Ids(job.g))) && queue == []
      modifies this
      ensures Valid(IDLE) && Drained(job.cfg, queue, activePQ)
    {
      hide Excused, Ranked, Quiet, Inv, Fixed, With, ReadyToLeave, QueueIds, Drained, ValidJob, HasRoom;
      assert QueueIds(queue) == {} by { NoQueue(); }
      assert job.g[0..] == job.g;
      for i := 0 to |job.g|
        invariant Valid(IDLE.(todo := Ids(job.g[i..])))
        invariant !job.cfg.prioritized ==> queue == []
        invariant job.cfg.prioritized ==> QueueIds(queue) !! Ids(job.g[i..])
      {
        var id := job.g[i].id;
        ghost var ph := IDLE.(todo := Ids(job.g[i..]));
        NextNode(i);
        InvKeys(job, St(), ph);
        if inDegree[id] == 0 && status[id] == Pending {
          IsReady(id, i);
          EnqueueReady(id, ph);
          assert IDLE.(todo := Ids(job.g[i + 1..])) == ph.(todo := ph.todo - {id});
        } else {
          TodoMayShrink(job, St(), ph, id);
          assert IDLE.(todo := Ids(job.g[i + 1..])) == ph.(todo := ph.todo - {id});
        }
        QueueStaysEmpty(IDLE.(todo := Ids(job.g[i + 1..])));
      }
      assert job.g[|job.g|..] == [];
      assert Ids(job.g[|job.g|..]) == {};
      DrainPQ();
    }

    lemma NoQueue()
      requires queue == []
      ensures QueueIds(queue) == {}
    {
    }

    lemma QueueStaysEmpty(ph: Phase)
      requires Inv(job, St(), ph)
      ensures !job.cfg.prioritized ==> queue == []
    {
    }

    lemma IsReady(id: Id, i: nat)
      requires i < |job.g| && id == job.g[i].id && id in inDegree && inDegree[id] == 0 && id in status && status[id] == Pending
      requires !job.cfg.prioritized ==> queue == []
      requires job.cfg.prioritized ==> QueueIds(queue) !! Ids(job.g[i..])
      ensures ReadyToLeave(job, St(), id)
    {
      assert job.g[i..][0] == job.g[i];
      assert id in Ids(job.g[i..]);
    }

    lemma NextNode(i: nat)
      requires Fixed() && i < |job.g|
      ensures job.g[i].id in Ids(job.g) && Ids(job.g[i + 1..]) == Ids(job.g[i..]) - {job.g[i].id}
    {
      hide Acyclic, KnownDeps;
      var rest := job.g[i..];
      assert rest == [job.g[i]] + job.g[i + 1..];
      forall x ensures x in Ids(rest) <==> x == job.g[i].id || x in Ids(job.g[i + 1..]) {
        if x in Ids(job.g[i + 1..]) {
          var k :| 0 <= k < |job.g[i + 1..]| && job.g[i + 1..][k].id == x;
          assert rest[k + 1].id == x;
        }
        if x == job.g[i].id {
          assert rest[0].id == x;
        }
      }
      var later := job.g[i + 1..];
      forall k | 0 <= k < |later| ensures later[k].id != job.g[i].id {
        assert later[k] == job.g[i + 1 + k];
      }
    }

    /** Waits for one completion, or notices that the caller's context is gone, and deals with it. */
    method Step() returns (stop: Option<End>, ghost tried: seq<Id>, ghost failed: set<Id>, ghost cut: set<Id>)
      requires Valid(IDLE) && Drained(job.cfg, queue, activePQ) && pending > 0
      modifies this
      ensures stop.None? ==> Valid(IDLE) && Drained(job.cfg, queue, activePQ) && pending < old(pending)
      ensures stop.Some? ==> Stops(stop.value, tried, failed, cut)
    {
      hide Excused, Ranked, Quiet, Inv, Fixed, Drained, IsOutcome, Ids, Reports, MayRun, Undone;
      Goroutines();
      var ctxDone: bool := *;
      if cancelled && ctxDone {
        StartedOnce(IDLE);
        NothingUndone(IDLE);
        AbortRunning(IDLE);
        return Some(Cancelled), [], {}, {};
      }
      if doneCh == [] {
        IsValidJob();
        NeverStuck(job, St());
        assert inFlight != map[];
        SendOne();
      }
      var comp := ReceiveOne();
      stop, tried, failed, cut := HandleCompletion(comp);
    }

    method ReceiveOne() returns (comp: Completion)
      requires Valid(IDLE) && doneCh != []
      modifies this`doneCh, this`pending, this`activePQ
      ensures Valid(IDLE.(popped := {comp.id})) && comp.id in status && status[comp.id] == Running
      ensures !cancelled ==> Reports(job, comp, results) && MayRun(job, comp.id, results)
      ensures pending == old(pending) - 1
    {
      hide Excused, Ranked, Quiet, Inv, Fixed, Reports, MayRun;
      comp := doneCh[0];
      Receive(job, St());
      doneCh := doneCh[1..];
      pending := pending - 1;
      if job.cfg.prioritized {
        activePQ := activePQ - 1;
      }
    }

    /** The event loop. */
    method Run() returns (end: End, ghost tried: seq<Id>, ghost failed: set<Id>, ghost cut: set<Id>)
      requires Valid(IDLE.(todo := Ids(job.g))) && queue == []
      modifies this
      ensures inFlight == map[] && doneCh == []
      ensures NoDup(started) && forall x :: x in started ==> x !in job.restored
      ensures AllServed(job, results, started, launched)
      ensures end.Finished? && !cancelled ==> AllAccounted(job, status, results)
      ensures end.Finished? ==> forall x :: x in status ==> status[x] in {Done, Skipped}
      ensures end.Finished? ==> NoneExits(job, results, launched, cancelled)
      ensures Ranked(job.g, job.cfg, started, drawn, queue) && Excused(gone, cancelled) && (cut != {} ==> CallerLeaves(gone))
      ensures !cancelled ==> EndsRight(job, end, status, results)
      ensures !end.Finished? ==> Stops(end, tried, failed, cut)
      ensures var rollsBack := end.NodeFailed? && job.cfg.strategy == Compensate && job.cfg.compensation.Some?;
              Undone(job.g, rollsBack, rollback, status, results, tried, failed, cut)
    {
      hide Excused, Ranked, Quiet, Inv, Fixed, Drained, IsOutcome, Ids, Undone;
      Start();
      while pending > 0
        invariant Valid(IDLE) && Drained(job.cfg, queue, activePQ)
      {
        var stop;
        stop, tried, failed, cut := Step();
        if stop.Some? {
          return stop.value, tried, failed, cut;
        }
      }
      PendingIsCount();
      AllEnded(job, St());
      StartedOnce(IDLE);
      NothingUndone(IDLE);
      if !cancelled {
        AccountsForAll(job, status, results);
      }
      QuietFinished(job, results, launched, salvaged, cancelled);
      end, tried, failed, cut := Finished, [], {}, {};
    }

    lemma PendingIsCount()
      requires Inv(job, St(), IDLE)
      ensures pending >= 0
    {
      hide Shaped, Degrees, Owed, Queued, Started, Truthful, Fed, Served;
    }

    constructor (j: Job, rb: Compensation.Rollback, context: nat -> bool)
      requires ValidJob(j) && j.g != []
      ensures job == j && rollback == rb && gone == context && Valid(IDLE.(todo := Ids(job.g))) && queue == [] && !cancelled
    {
      hide IsOutcome, SettledAt, Acyclic, Inv, Degrees, Fed, Served, Quiet, Ranked, KnownDeps, UniqueIds,
           Topo.IsDownstream;
      var downstream0, inDegree0 := Topo.BuildMaps(j.g);
      var inDegree1 := RestoreDegrees(j, downstream0, inDegree0);
      job, rollback, gone, downstream := j, rb, context, downstream0;
      nodeMap := BuildNodeMap(j.g);
      var status0 := map x | x in Ids(j.g) :: if x in j.restored then Done else Pending;
      status, results, inDegree := status0, j.restored, inDegree1;
      pending := |set x | x in status0 && status0[x] == Pending|;
      activePQ, queue, doneCh, inFlight, cancelled, started, launched := 0, [], [], map[], false, [], map[];
      salvaged, drawn := {}, [];
      new;
      InitialState(job, St());
      QuietAtStart(job);
      NoneRanked(job.g, job.cfg);
    }
  }

  lemma AccountsForAll(job: Job, status: map<Id, Status>, results: map<Id, Payload>)
    requires IsOutcome(job, status, results)
    ensures AllAccounted(job, status, results)
  {
    hide IsOutcome, Accounted;
    OutcomeMeans(job, status, results);
  }

  lemma InitialSets(job: Job, status: map<Id, Status>)
    requires job.restored.Keys <= Ids(job.g)
    requires status == map x | x in Ids(job.g) :: if x in job.restored then Done else Pending
    ensures With(status, Running) == {} && With(status, Skipped) == {} && With(status, Done) == job.restored.Keys
    ensures Terminal(status) == job.restored.Keys && Active(status) == With(status, Pending)
    ensures forall x :: x in status ==> status[x] in {Done, Pending}
  {
  }

  lemma InitialTruth(job: Job, status: map<Id, Status>)
    requires job.restored.Keys <= Ids(job.g)
    requires status == map x | x in Ids(job.g) :: if x in job.restored then Done else Pending
    requires With(status, Running) == {} && Terminal(status) == job.restored.Keys
    ensures Truthful(job, status, job.restored, map[], [])
  {
    hide JobVerdict, MayRun, Reports, Carries;
    forall x | x in Terminal(status) ensures Right(job, x, status, job.restored) {
      assert x in job.restored;
    }
  }

  lemma InitialState(job: Job, s: State)
    requires ValidJob(job) && Degrees(job.g, s.inDegree, job.restored.Keys, multiset{})
    requires s.status == map x | x in Ids(job.g) :: if x in job.restored then Done else Pending
    requires s.results == job.restored && s.pending == |With(s.status, Pending)|
    requires s.activePQ == 0 && s.queue == [] && s.doneCh == [] && s.inFlight == map[] && s.started == [] && s.launched == map[]
    ensures Inv(job, s, IDLE.(todo := Ids(job.g)))
  {
    hide UniqueIds, KnownDeps, Acyclic, JobVerdict, Degrees, Truthful, With, Active, Terminal, Started, Queued, Fed,
         Served;
    InitialSets(job, s.status);
    InitialTruth(job, s.status);
    InitialQueue(job, s.status, s.inDegree);
    InitialStarted(job, s.status);
    InitialFed(job, s.status, s.results);
    assert Active(s.status) - {} == Active(s.status) && With(s.status, Running) - {} == {};
    assert ChanIds([]) == {};
  }

  lemma InitialQueue(job: Job, status: map<Id, Status>, inDegree: map<Id, int>)
    requires status.Keys == Ids(job.g)
    ensures Queued(job.cfg, status, inDegree, [], Ids(job.g))
  {
  }

  lemma InitialFed(job: Job, status: map<Id, Status>, results: map<Id, Payload>)
    ensures Fed(job, status, results, [], map[], map[])
  {
  }

  lemma InitialStarted(job: Job, status: map<Id, Status>)
    requires job.restored.Keys <= Ids(job.g)
    requires status == map x | x in Ids(job.g) :: if x in job.restored then Done else Pending
    ensures Started(job, status, [])
  {
    hide DepsTerminal;
  }

  /** In-degrees discounted for the nodes a checkpoint has already completed. */
  method RestoreDegrees(job: Job, downstream: map<Id, seq<Id>>, inDegree0: map<Id, int>) returns (inDegree: map<Id, int>)
    requires ValidJob(job) && Topo.IsDownstream(job.g, downstream) && inDegree0.Keys == Ids(job.g)
    requires forall x :: x in Ids(job.g) ==> inDegree0[x] == |DepsOf(job.g, x)|
    ensures Degrees(job.g, inDegree, job.restored.Keys, multiset{})
  {
    hide Acyclic, KnownDeps, UniqueIds, Degrees, Topo.Downstream, Fed, Served;
    inDegree := inDegree0;
    InitialDegrees(job.g, inDegree0);
    ghost var ended: set<Id> := {};
    for i := 0 to |job.g|
      invariant ended == set x | x in job.restored && x in Ids(job.g[..i])
      invariant Degrees(job.g, inDegree, ended, multiset{})
    {
      var id := job.g[i].id;
      NewId(job.g, i);
      if id in job.restored {
        DegreesEnd(job.g, inDegree, ended, multiset{}, id);
        var ds := Topo.Lookup(downstream, id);
        assert multiset{} + multiset(ds) == multiset(ds);
        inDegree := PayAll(job.g, id, ds, inDegree, ended + {id});
        ended := ended + {id};
      }
    }
    assert job.g[..|job.g|] == job.g;
    assert ended == job.restored.Keys;
  }

  lemma NewId(g: seq<Node>, i: nat)
    requires UniqueIds(g) && i < |g|
    ensures Ids(g[..i + 1]) == Ids(g[..i]) + {g[i].id} && g[i].id !in Ids(g[..i])
  {
    assert g[..i + 1] == g[..i] + [g[i]];
    forall k | 0 <= k < i ensures g[..i][k].id != g[i].id {}
  }

  lemma InitialDegrees(g: seq<Node>, inDegree: map<Id, int>)
    requires inDegree.Keys == Ids(g) && forall x :: x in Ids(g) ==> inDegree[x] == |DepsOf(g, x)|
    ensures Degrees(g, inDegree, {}, multiset{})
  {
    forall x | x in inDegree ensures inDegree[x] == Remaining(DepsOf(g, x), {}) {
      RemainingNone(DepsOf(g, x));
    }
  }

  method PayAll(g: seq<Node>, ghost id: Id, ds: seq<Id>, inDegree0: map<Id, int>, ghost ended: set<Id>)
    returns (inDegree: map<Id, int>)
    requires UniqueIds(g) && ds == Topo.Downstream(g, id) && Degrees(g, inDegree0, ended, multiset(ds))
    ensures Degrees(g, inDegree, ended, multiset{})
  {
    hide Degrees, UniqueIds, Topo.Downstream, Fed, Served;
    inDegree := inDegree0;
    assert ds[0..] == ds;
    for k := 0 to |ds|
      invariant Degrees(g, inDegree, ended, multiset(ds[k..]))
    {
      var x := ds[k];
      assert ds[k..] == [x] + ds[k + 1..];
      Topo.DownstreamIsEdge(g, id, x);
      EdgeIsDep(g, id, x);
      DegreesPay(g, inDegree, ended, multiset(ds[k..]), x);
      assert multiset(ds[k..]) - multiset{x} == multiset(ds[k + 1..]);
      DegreesKeys(g, inDegree, ended, multiset(ds[k..]));
      inDegree := inDegree[x := inDegree[x] - 1];
    }
    assert ds[|ds|..] == [];
  }

  lemma DegreesKeys(g: seq<Node>, inDegree: map<Id, int>, ended: set<Id>, debt: multiset<Id>)
    requires Degrees(g, inDegree, ended, debt)
    ensures inDegree.Keys == Ids(g)
  {
  }

  function BuildNodeMap(g: seq<Node>): (m: map<Id, Node>)
    requires UniqueIds(g)
    ensures m.Keys == Ids(g) && forall i :: 0 <= i < |g| ==> m[g[i].id] == g[i]
  {
    if g == [] then map[]
    else
      var last := |g| - 1;
      NewId(g, last);
      assert g[..last + 1] == g;
      BuildNodeMap(g[..last])[g[last].id := g[last]]
  }

  lemma InvKeys(job: Job, s: State, ph: Phase)
    requires Inv(job, s, ph)
    ensures s.status.Keys == Ids(job.g) == s.inDegree.Keys
    ensures s.results.Keys == With(s.status, Done)
  {
    hide Counted, Owed, Queued, Started, Truthful, Fed, Served;
  }

  lemma WaitingShrinks(status: map<Id, Status>, id: Id, st: Status)
    requires id in status && status[id] == Pending && st != Pending
    ensures |With(status[id := st], Pending)| < |With(status, Pending)|
  {
    WithSet(status, id, st, Pending);
    assert id in With(status, Pending);
  }

  // ---- entry point

  datatype Report = Report(end: End, status: map<Id, Status>, results: map<Id, Payload>, cancelled: bool)

  function JobOf(nodes: seq<Node>, cfg: Config, request: Payload, checkpoint: map<Id, Payload>): Job {
    Job(nodes, cfg, request, map x | x in checkpoint && x in Ids(nodes) :: checkpoint[x])
  }

  /** The priorities of all nodes: those given, and where none is the length of the longest chain through the node. */
  ghost predicate Chains(nodes: seq<Node>, given: map<Id, int>, priority: map<Id, int>) {
    && priority.Keys == Ids(nodes)
    && forall x :: x in priority ==>
         if x in given && given[x] != 0 then priority[x] == given[x] else CriticalPath.LongestThrough(nodes, x, priority[x])
  }

  /** Nodes without a priority of their own get the length of the longest chain through them. */
  method ChainPriorities(nodes: seq<Node>, given: map<Id, int>) returns (priority: map<Id, int>)
    requires WellFormed(nodes) && Acyclic(nodes)
    ensures Chains(nodes, given, priority)
  {
    hide Acyclic, KnownDeps, UniqueIds, CriticalPath.LongestThrough;
    var cp := CriticalPath.ComputeCriticalPath(nodes);
    priority := map x | x in cp :: if x in given && given[x] != 0 then given[x] else cp[x];
  }

  /** What an uncancelled run guarantees of its end. */
  ghost predicate EndsRight(job: Job, end: End, status: map<Id, Status>, results: map<Id, Payload>) {
    && (end.Finished? ==> IsOutcome(job, status, results))
    && (end.NodeFailed? ==> forall s2, r2 :: !IsOutcome(job, s2, r2))
    && (end.ExitedEarly? ==> Foretells(job, status, results))
  }

  /** cfg with its launches steered otherwise: by other priorities, or none, and under another limit. */
  function Steered(cfg: Config, p: map<Id, int>, prioritized: bool, maxConcurrency: int): Config {
    cfg.(priority := p, prioritized := prioritized, maxConcurrency := maxConcurrency)
  }

  lemma SteeringKeepsOutcome(job: Job, p: map<Id, int>, prioritized: bool, maxConcurrency: int, status: map<Id, Status>, results: map<Id, Payload>)
    ensures IsOutcome(job.(cfg := Steered(job.cfg, p, prioritized, maxConcurrency)), status, results) <==> IsOutcome(job, status, results)
  {
    var job' := job.(cfg := Steered(job.cfg, p, prioritized, maxConcurrency));
    forall x | x in Ids(job.g) ensures JobVerdict(job', x, results) == JobVerdict(job, x, results) {
      SteeringVerdict(job, p, prioritized, maxConcurrency, x, results);
    }
  }

  lemma SteeringServes(job: Job, p: map<Id, int>, prioritized: bool, maxConcurrency: int, results: map<Id, Payload>,
                       started: seq<Id>, launched: map<Id, Payload>)
    requires AllServed(job.(cfg := Steered(job.cfg, p, prioritized, maxConcurrency)), results, started, launched)
    ensures AllServed(job, results, started, launched)
  {
    hide Gathers, Joined;
    var job' := job.(cfg := Steered(job.cfg, p, prioritized, maxConcurrency));
    forall x | x in started ensures Served(job, x, results, launched) {
      assert Served(job', x, results, launched);
    }
  }

  lemma SteeringStops(job: Job, p: map<Id, int>, prioritized: bool, maxConcurrency: int, x: Id, results: map<Id, Payload>)
    requires Fatal(job.(cfg := Steered(job.cfg, p, prioritized, maxConcurrency)), x, results)
    ensures Fatal(job, x, results)
  {
    hide JobVerdict, Breaks, Tolerated;
    var job' := job.(cfg := Steered(job.cfg, p, prioritized, maxConcurrency));
    VerdictMeans(job', x, results);
    VerdictMeans(job, x, results);
    SteeringVerdict(job, p, prioritized, maxConcurrency, x, results);
  }

  lemma SteeringVerdict(job: Job, p: map<Id, int>, prioritized: bool, maxConcurrency: int, x: Id, results: map<Id, Payload>)
    requires x in Ids(job.g)
    ensures JobVerdict(job.(cfg := Steered(job.cfg, p, prioritized, maxConcurrency)), x, results) == JobVerdict(job, x, results)
  {
  }

  lemma SteeringForetells(job: Job, p: map<Id, int>, prioritized: bool, maxConcurrency: int, status: map<Id, Status>, results: map<Id, Payload>)
    requires Foretells(job.(cfg := Steered(job.cfg, p, prioritized, maxConcurrency)), status, results)
    ensures Foretells(job, status, results)
  {
    hide IsOutcome, AgreesAt, Terminal;
    forall s2, r2, x | IsOutcome(job, s2, r2) && x in Terminal(status) ensures AgreesAt(x, status, results, s2, r2) {
      SteeringKeepsOutcome(job, p, prioritized, maxConcurrency, s2, r2);
    }
  }

  /** Two uncancelled runs of one job, their launches steered differently, each in any schedule: if both finish they end
      with the same table, and one cannot finish where the other is stopped by a failure. */
  lemma PriorityIsInvisible(job: Job, p: map<Id, int>, prioritized: bool, maxConcurrency: int,
                            a: End, status: map<Id, Status>, results: map<Id, Payload>,
                            b: End, status': map<Id, Status>, results': map<Id, Payload>)
    requires ValidJob(job) && EndsRight(job, a, status, results)
    requires EndsRight(job.(cfg := Steered(job.cfg, p, prioritized, maxConcurrency)), b, status', results')
    ensures a.Finished? && b.Finished? ==> status == status' && results == results'
    ensures !(a.Finished? && b.NodeFailed?) && !(a.NodeFailed? && b.Finished?)
  {
    hide ValidJob, IsOutcome;
    SteeringKeepsOutcome(job, p, prioritized, maxConcurrency, status, results);
    SteeringKeepsOutcome(job, p, prioritized, maxConcurrency, status', results');
    if a.Finished? && b.Finished? {
      OutcomeUnique(job, status, results, status', results');
    }
  }

  /** What has ended so far is part of what running the nodes one by one gives, in every dependency order, if that
      completes. */
  ghost predicate SequentialExtends(job: Job, status: map<Id, Status>, results: map<Id, Payload>) {
    forall order :: TopologicalOrder(job.g, order) ==>
      && Elems(order) <= Ids(job.g)
      && match RunInOrder(job, order)
         case None => true
         case Some(t) => forall x :: x in Terminal(status) ==> AgreesAt(x, status, results, t.status, t.results)
  }

  lemma ForetellsSequential(job: Job, status: map<Id, Status>, results: map<Id, Payload>)
    requires ValidJob(job) && Foretells(job, status, results)
    ensures SequentialExtends(job, status, results)
  {
    hide ValidJob, IsOutcome, TopologicalOrder, RunInOrder, AgreesAt, Terminal;
    forall order | TopologicalOrder(job.g, order)
      ensures Elems(order) <= Ids(job.g)
      ensures match RunInOrder(job, order)
              case None => true
              case Some(t) => forall x :: x in Terminal(status) ==> AgreesAt(x, status, results, t.status, t.results)
    {
      SequentialIsOutcome(job, order);
    }
  }

  /** What running the nodes one by one gives, in every dependency order. */
  ghost predicate SequentialGives(job: Job, t: Option<Table>) {
    forall order :: TopologicalOrder(job.g, order) ==> Elems(order) <= Ids(job.g) && RunInOrder(job, order) == t
  }

  lemma SequentialAgrees(job: Job, status: map<Id, Status>, results: map<Id, Payload>)
    requires ValidJob(job) && IsOutcome(job, status, results)
    ensures SequentialGives(job, Some(Table(status, results)))
  {
    hide ValidJob, IsOutcome, TopologicalOrder, RunInOrder;
    forall order | TopologicalOrder(job.g, order)
      ensures Elems(order) <= Ids(job.g) && RunInOrder(job, order) == Some(Table(status, results))
    {
      OutcomeIsSequential(job, order, status, results);
    }
  }

  lemma SequentialFails(job: Job)
    requires ValidJob(job) && forall s2, r2 :: !IsOutcome(job, s2, r2)
    ensures SequentialGives(job, None)
  {
    hide ValidJob, IsOutcome, TopologicalOrder, RunInOrder;
    forall order | TopologicalOrder(job.g, order)
      ensures Elems(order) <= Ids(job.g) && RunInOrder(job, order) == None
    {
      SequentialIsOutcome(job, order);
    }
  }

  /** What a steered run's end says of the job itself. */
  lemma SteeredEnd(job: Job, p: map<Id, int>, prioritized: bool, maxConcurrency: int, end: End, status: map<Id, Status>, results: map<Id, Payload>)
    requires ValidJob(job)
    requires EndsRight(job.(cfg := Steered(job.cfg, p, prioritized, maxConcurrency)), end, status, results)
    requires end.NodeFailed? ==> Fatal(job.(cfg := Steered(job.cfg, p, prioritized, maxConcurrency)), end.id, results)
    ensures end.Finished? ==> SequentialGives(job, Some(Table(status, results))) && AllAccounted(job, status, results)
    ensures end.NodeFailed? ==> SequentialGives(job, None) && Fatal(job, end.id, results)
    ensures end.ExitedEarly? ==> SequentialExtends(job, status, results)
  {
    hide ValidJob, IsOutcome, Foretells, SequentialGives, SequentialExtends, AllAccounted, Fatal;
    if end.Finished? {
      SteeringKeepsOutcome(job, p, prioritized, maxConcurrency, status, results);
      SequentialAgrees(job, status, results);
      AccountsForAll(job, status, results);
    }
    if end.ExitedEarly? {
      SteeringForetells(job, p, prioritized, maxConcurrency, status, results);
      ForetellsSequential(job, status, results);
    }
    if end.NodeFailed? {
      forall s2, r2 ensures !IsOutcome(job, s2, r2) {
        SteeringKeepsOutcome(job, p, prioritized, maxConcurrency, s2, r2);
      }
      SequentialFails(job);
      SteeringStops(job, p, prioritized, maxConcurrency, end.id, results);
    }
  }

  /** Every item waits with the priority it deserves: the one given, or else, if chains count, the length of the longest
      dependency chain through the node, or else 0. */
  ghost predicate Deserved(nodes: seq<Node>, given: map<Id, int>, chainsCount: bool, queue: seq<Item>) {
    forall j :: 0 <= j < |queue| ==>
      var x, p := queue[j].id, queue[j].priority;
      if x in given && given[x] != 0 then p == given[x]
      else if chainsCount then CriticalPath.LongestThrough(nodes, x, p)
      else p == 0
  }

  lemma DeservedIs(nodes: seq<Node>, cfg: Config, chainsCount: bool, priority: map<Id, int>, queue: seq<Item>)
    requires Weighed(nodes, cfg.(priority := priority), queue)
    requires if chainsCount then Chains(nodes, cfg.priority, priority) else priority == cfg.priority
    ensures Deserved(nodes, cfg.priority, chainsCount, queue)
  {
    hide CriticalPath.LongestThrough, Ids;
  }

  lemma DrawsMean(nodes: seq<Node>, cfg: Config, chainsCount: bool, priority: map<Id, int>, started: seq<Id>, drawn: seq<Draw>, queue: seq<Item>)
    requires Ranked(nodes, cfg.(priority := priority), started, drawn, queue) && cfg.prioritized
    requires if chainsCount then Chains(nodes, cfg.priority, priority) else priority == cfg.priority
    ensures forall x :: x in started ==> WasDrawn(drawn, x)
    ensures forall k :: 0 <= k < |drawn| ==> FirstOfBest(drawn[k]) && Deserved(nodes, cfg.priority, chainsCount, drawn[k].queue)
  {
    hide FirstOfBest, Weighed, WasDrawn, Deserved, Chains;
    forall k | 0 <= k < |drawn| ensures Deserved(nodes, cfg.priority, chainsCount, drawn[k].queue) {
      DeservedIs(nodes, cfg, chainsCount, priority, drawn[k].queue);
    }
  }

  /** Runs a graph. Unless the caller cancels, a finished run has exactly the table of the sequential reading, whatever
      the schedule, the priorities and the concurrency limit, and a run stopped by a failure has no such table. */
  method ExecuteDAG(nodes: seq<Node>, cfg: Config, criticalPathAuto: bool, request: Payload,
                    checkpoint: map<Id, Payload>, rb: Compensation.Rollback, gone: nat -> bool)
    returns (r: Result<Report, Validate.Error>, ghost tried: seq<Id>, ghost failed: set<Id>, ghost cut: set<Id>,
             ghost started: seq<Id>, ghost launched: map<Id, Payload>, ghost drawn: seq<Draw>)
    ensures r.Err? <==> !Validate.Admissible(nodes) && nodes != []
    ensures r.Ok? && r.value.end.Finished? && !r.value.cancelled ==>
              SequentialGives(JobOf(nodes, cfg, request, checkpoint), Some(Table(r.value.status, r.value.results)))
    ensures r.Ok? && r.value.end.NodeFailed? && !r.value.cancelled ==>
              SequentialGives(JobOf(nodes, cfg, request, checkpoint), None)
    ensures r.Ok? && r.value.end.ExitedEarly? && !r.value.cancelled ==>
              SequentialExtends(JobOf(nodes, cfg, request, checkpoint), r.value.status, r.value.results)
    ensures r.Ok? && r.value.end.Finished? && !r.value.cancelled ==>
              AllAccounted(JobOf(nodes, cfg, request, checkpoint), r.value.status, r.value.results)
    ensures r.Ok? && r.value.end.NodeFailed? && !r.value.cancelled ==>
              Fatal(JobOf(nodes, cfg, request, checkpoint), r.value.end.id, r.value.results)
    ensures r.Ok? ==> AllServed(JobOf(nodes, cfg, request, checkpoint), r.value.results, started, launched)
    ensures r.Ok? && r.value.end.Finished? ==>
              NoneExits(JobOf(nodes, cfg, request, checkpoint), r.value.results, launched, r.value.cancelled)
    ensures r.Ok? && r.value.end.ExitedEarly? ==>
              r.value.end.id in r.value.results && cfg.earlyExit(r.value.end.id, r.value.results[r.value.end.id])
    ensures r.Ok? && r.value.end.Cancelled? ==> r.value.cancelled
    ensures r.Ok? && (r.value.cancelled || cut != {}) ==> CallerLeaves(gone)
    ensures r.Ok? && cfg.prioritized ==> forall x :: x in started ==> WasDrawn(drawn, x)
    ensures r.Ok? ==> forall k :: 0 <= k < |drawn| ==> FirstOfBest(drawn[k]) && Deserved(nodes, cfg.priority, criticalPathAuto, drawn[k].queue)
    ensures r.Ok? ==> var rollsBack := r.value.end.NodeFailed? && cfg.strategy == Compensate && cfg.compensation.Some?;
                      Undone(nodes, rollsBack, rb, r.value.status, r.value.results, tried, failed, cut)
  {
    hide Executor.Valid, Executor.Fixed, Quiet, Chains, CallerLeaves, Ranked, Weighed, Deserved, FirstOfBest,
         WasDrawn, CriticalPath.LongestThrough, NoneExits, JobOf, Steered, Inv, IsOutcome, SequentialGives,
         SequentialExtends, Foretells, AllServed, AllAccounted, Fatal, EndsRight, Acyclic, Validate.Connected,
         WellFormed, Undone;
    tried, failed, cut, started, launched, drawn := [], {}, {}, [], map[], [];
    if |nodes| == 0 {
      EmptyRun(cfg, request, checkpoint, rb);
      r := Ok(Report(Finished, map[], map[], false));
      return;
    }
    var invalid := Validate.ValidateDAG(nodes);
    if invalid.Some? {
      r := Err(invalid.value);
      return;
    }
    var priority := cfg.priority;
    if cfg.prioritized && criticalPathAuto {
      priority := ChainPriorities(nodes, cfg.priority);
    }
    ghost var plain := JobOf(nodes, cfg, request, checkpoint);
    var job := JobOf(nodes, cfg.(priority := priority), request, checkpoint);
    SteeredJob(nodes, cfg, request, checkpoint, priority);
    var ex := new Executor(job, rb, gone);
    var end;
    end, tried, failed, cut := ex.Run();
    started, launched := ex.started, ex.launched;
    if cfg.prioritized {
      drawn := ex.drawn;
      DrawsMean(nodes, cfg, criticalPathAuto, priority, ex.started, ex.drawn, ex.queue);
    }
    SteeringServes(plain, priority, cfg.prioritized, cfg.maxConcurrency, ex.results, started, launched);
    if end.Finished? {
      SteeringExits(plain, priority, cfg.prioritized, cfg.maxConcurrency, ex.results, launched, ex.cancelled);
    }
    if !ex.cancelled {
      SteeredEnd(plain, priority, cfg.prioritized, cfg.maxConcurrency, end, ex.status, ex.results);
    }
    r := Ok(Report(end, ex.status, ex.results, ex.cancelled));
  }

  lemma SteeringExits(job: Job, p: map<Id, int>, prioritized: bool, maxConcurrency: int, results: map<Id, Payload>, launched: map<Id, Payload>,
                      cancelled: bool)
    requires NoneExits(job.(cfg := Steered(job.cfg, p, prioritized, maxConcurrency)), results, launched, cancelled)
    ensures NoneExits(job, results, launched, cancelled)
  {
  }

  lemma SteeredJob(nodes: seq<Node>, cfg: Config, request: Payload, checkpoint: map<Id, Payload>, priority: map<Id, int>)
    ensures var job, plain := JobOf(nodes, cfg.(priority := priority), request, checkpoint), JobOf(nodes, cfg, request, checkpoint);
            && job == plain.(cfg := Steered(plain.cfg, priority, cfg.prioritized, cfg.maxConcurrency))
            && job.g == nodes && job.cfg.strategy == cfg.strategy && job.cfg.compensation == cfg.compensation
            && job.cfg == cfg.(priority := priority)
            && job.restored.Keys <= Ids(nodes)
  {
  }

  lemma EmptyRun(cfg: Config, request: Payload, checkpoint: map<Id, Payload>, rb: Compensation.Rollback)
    ensures SequentialGives(JobOf([], cfg, request, checkpoint), Some(Table(map[], map[])))
    ensures AllAccounted(JobOf([], cfg, request, checkpoint), map[], map[])
    ensures AllServed(JobOf([], cfg, request, checkpoint), map[], [], map[])
    ensures NoneExits(JobOf([], cfg, request, checkpoint), map[], map[], false)
    ensures Undone([], false, rb, map[], map[], [], {}, {})
  {
    forall order | TopologicalOrder([], order) ensures order == [] {
      assert Elems(order) == {};
      NoDupSize(order);
    }
  }
}
