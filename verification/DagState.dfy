/** The event loop's state as a value, what a finished run must satisfy, and the loop invariant with its steps. */
module DagState {
  import opened Graph
  import opened Wrappers

  datatype Status = Pending | Running | Done | Failed | Skipped | Compensated

  datatype Message = Message(text: string)

  /** A request handed to a runner and a response it returns both carry a message list. */
  datatype Payload = Payload(messages: seq<Message>)

  datatype Outcome = Success(resp: Payload) | Failure(interrupted: bool)

  datatype Strategy = Abort | Skip | Compensate

  datatype Recovery = BackwardCompensate | ForwardRecovery

  /** Caller-supplied callbacks are arbitrary functions; an absent callback is an absent key. */
  datatype Config = Config(
    maxConcurrency: int,
    strategy: Strategy,
    compensation: Option<Recovery>,
    prioritized: bool,
    optional: set<Id>,
    priority: map<Id, int>,
    condition: map<Id, map<Id, Payload> -> bool>,
    mapper: map<Id, map<Id, Payload> -> Option<Payload>>,
    run: (Id, Payload) -> Outcome,
    recover: (Id, Payload) -> Option<Payload>,
    earlyExit: (Id, Payload) -> bool)

  /** What a run is about: the graph, the configuration, the request and the checkpoint it starts from. */
  datatype Job = Job(g: seq<Node>, cfg: Config, request: Payload, restored: map<Id, Payload>)

  datatype Completion = Completion(id: Id, outcome: Outcome)

  datatype Item = Item(id: Id, priority: int)

  datatype State = State(
    status: map<Id, Status>,
    results: map<Id, Payload>,
    inDegree: map<Id, int>,
    pending: int,
    activePQ: int,
    queue: seq<Item>,
    doneCh: seq<Completion>,
    inFlight: map<Id, Payload>,
    started: seq<Id>,
    launched: map<Id, Payload>,
    cancelled: bool)

  ghost predicate ValidJob(job: Job) {
    WellFormed(job.g) && Acyclic(job.g) && job.restored.Keys <= Ids(job.g)
  }

  // ---- what one node's result should be, given its dependencies' results

  /** The results of the dependencies that have one. */
  ghost function Upstream(g: seq<Node>, x: Id, results: map<Id, Payload>): map<Id, Payload>
    requires x in Ids(g)
  {
    map d | d in DepsOf(g, x) && d in results :: results[d]
  }

  function Concat(deps: seq<Id>, up: map<Id, Payload>): seq<Message> {
    if deps == [] then []
    else
      var last := deps[|deps| - 1];
      Concat(deps[..|deps| - 1], up) + if last in up then up[last].messages else []
  }

  /** The request a node runs on; None when its mapper fails. */
  function NodeInput(cfg: Config, request: Payload, x: Id, deps: seq<Id>, up: map<Id, Payload>): Option<Payload> {
    if x in cfg.mapper then cfg.mapper[x](up)
    else if |deps| == 0 then Some(request)
    else if |deps| == 1 then Some(if deps[0] in up then up[deps[0]] else request)
    else Some(Payload(Concat(deps, up)))
  }

  function NodeOutcome(cfg: Config, request: Payload, x: Id, deps: seq<Id>, up: map<Id, Payload>): Outcome {
    match NodeInput(cfg, request, x, deps, up)
    case None => Failure(false)
    case Some(req) => cfg.run(x, req)
  }

  function ConditionHolds(cfg: Config, x: Id, up: map<Id, Payload>): bool {
    x in cfg.condition ==> cfg.condition[x](up)
  }

  datatype Verdict = Settles(resp: Payload) | IsSkipped | StopsRun

  /** Forward recovery applies to failures that are not suspensions and whose request can be rebuilt. */
  function Recovered(cfg: Config, request: Payload, x: Id, deps: seq<Id>, up: map<Id, Payload>, interrupted: bool): Option<Payload> {
    if cfg.strategy == Compensate && cfg.compensation == Some(ForwardRecovery) && !interrupted then
      match NodeInput(cfg, request, x, deps, up)
      case None => None
      case Some(req) => cfg.recover(x, req)
    else None
  }

  function FailureVerdict(cfg: Config, x: Id): Verdict {
    if cfg.strategy == Compensate && cfg.compensation.Some? then StopsRun
    else if cfg.strategy == Abort || x !in cfg.optional then StopsRun
    else IsSkipped
  }

  function VerdictOf(cfg: Config, request: Payload, x: Id, deps: seq<Id>, up: map<Id, Payload>): Verdict {
    if !ConditionHolds(cfg, x, up) then IsSkipped
    else
      match NodeOutcome(cfg, request, x, deps, up)
      case Success(resp) => Settles(resp)
      case Failure(interrupted) =>
        match Recovered(cfg, request, x, deps, up, interrupted)
        case Some(resp) => Settles(resp)
        case None => FailureVerdict(cfg, x)
  }

  ghost function JobVerdict(job: Job, x: Id, results: map<Id, Payload>): Verdict
    requires x in Ids(job.g)
  {
    VerdictOf(job.cfg, job.request, x, DepsOf(job.g, x), Upstream(job.g, x, results))
  }

  /** x has ended the way its own definition and the results below it demand. */
  ghost predicate SettledAt(job: Job, x: Id, status: map<Id, Status>, results: map<Id, Payload>)
    requires x in Ids(job.g) && x in status
  {
    if x in job.restored then status[x] == Done && x in results && results[x] == job.restored[x]
    else
      match JobVerdict(job, x, results)
      case Settles(resp) => status[x] == Done && x in results && results[x] == resp
      case IsSkipped => status[x] == Skipped && x !in results
      case StopsRun => false
  }

  /** A run's complete result: every node has settled. */
  ghost predicate IsOutcome(job: Job, status: map<Id, Status>, results: map<Id, Payload>) {
    && status.Keys == Ids(job.g)
    && results.Keys <= Ids(job.g)
    && forall x :: x in status ==> SettledAt(job, x, status, results)
  }

  lemma SameUpstream(g: seq<Node>, x: Id, r1: map<Id, Payload>, r2: map<Id, Payload>)
    requires x in Ids(g)
    requires forall d :: d in DepsOf(g, x) ==> (d in r1 <==> d in r2) && (d in r1 ==> r1[d] == r2[d])
    ensures Upstream(g, x, r1) == Upstream(g, x, r2)
  {
  }

  ghost predicate Agree(x: Id, s1: map<Id, Status>, r1: map<Id, Payload>, s2: map<Id, Status>, r2: map<Id, Payload>)
    requires x in s1 && x in s2
  {
    s1[x] == s2[x] && (x in r1 <==> x in r2) && (x in r1 ==> r1[x] == r2[x])
  }

  lemma DepKnown(g: seq<Node>, x: Id, d: Id)
    requires WellFormed(g) && x in Ids(g) && d in DepsOf(g, x)
    ensures d in Ids(g) && Edge(g, d, x)
  {
    EdgeIsDep(g, d, x);
    assert NodeOf(g, x) in g;
  }

  lemma AgreeFromBelow(job: Job, x: Id, s1: map<Id, Status>, r1: map<Id, Payload>, s2: map<Id, Status>, r2: map<Id, Payload>)
    requires ValidJob(job) && IsOutcome(job, s1, r1) && IsOutcome(job, s2, r2) && x in Ids(job.g)
    requires forall d :: d in s1 && Edge(job.g, d, x) ==> Agree(d, s1, r1, s2, r2)
    ensures Agree(x, s1, r1, s2, r2)
  {
    forall d | d in DepsOf(job.g, x) ensures (d in r1 <==> d in r2) && (d in r1 ==> r1[d] == r2[d]) {
      DepKnown(job.g, x, d);
      assert Agree(d, s1, r1, s2, r2);
    }
    SameUpstream(job.g, x, r1, r2);
    assert SettledAt(job, x, s1, r1) && SettledAt(job, x, s2, r2);
  }

  /** The result of a run that settles every node does not depend on scheduling: there is only one. */
  lemma OutcomeUnique(job: Job, s1: map<Id, Status>, r1: map<Id, Payload>, s2: map<Id, Status>, r2: map<Id, Payload>)
    requires ValidJob(job) && IsOutcome(job, s1, r1) && IsOutcome(job, s2, r2)
    ensures s1 == s2 && r1 == r2
  {
    hide SettledAt, Edge, Acyclic, KnownDeps, UniqueIds;
    var bad := set x | x in Ids(job.g) && !Agree(x, s1, r1, s2, r2);
    if bad != {} {
      AcyclicHasSource(job.g, bad);
      var x :| x in bad && !HasPred(job.g, bad, x);
      forall d | d in s1 && Edge(job.g, d, x) ensures Agree(d, s1, r1, s2, r2) {
        assert d !in bad;
      }
      AgreeFromBelow(job, x, s1, r1, s2, r2);
    }
    forall x | x in Ids(job.g) ensures Agree(x, s1, r1, s2, r2) {
      assert x !in bad;
    }
  }

  datatype Table = Table(status: map<Id, Status>, results: map<Id, Payload>)

  ghost function Record(job: Job, x: Id, t: Table): Option<Table>
    requires x in Ids(job.g)
  {
    if x in job.restored then Some(Table(t.status[x := Done], t.results[x := job.restored[x]]))
    else
      match JobVerdict(job, x, t.results)
      case Settles(resp) => Some(Table(t.status[x := Done], t.results[x := resp]))
      case IsSkipped => Some(Table(t.status[x := Skipped], t.results))
      case StopsRun => None
  }

  /** The plain sequential reading of a graph: one node after another, no concurrency. */
  ghost function RunInOrder(job: Job, order: seq<Id>): Option<Table>
    requires Elems(order) <= Ids(job.g)
  {
    if order == [] then Some(Table(map[], map[]))
    else
      var init := order[..|order| - 1];
      assert Elems(init) <= Elems(order);
      assert order[|order| - 1] in Elems(order);
      match RunInOrder(job, init)
      case None => None
      case Some(t) => Record(job, order[|order| - 1], t)
  }

  ghost function Restrict<T>(m: map<Id, T>, keys: seq<Id>): map<Id, T> {
    map x | x in m && x in keys :: m[x]
  }

  lemma RestrictAdd<T>(m: map<Id, T>, keys: seq<Id>, x: Id)
    ensures Restrict(m, keys + [x]) == if x in m then Restrict(m, keys)[x := m[x]] else Restrict(m, keys)
  {
  }

  lemma SequentialStep(job: Job, order: seq<Id>, k: nat, status: map<Id, Status>, results: map<Id, Payload>)
    requires ValidJob(job) && TopologicalOrder(job.g, order) && IsOutcome(job, status, results) && k < |order|
    ensures order[k] in Ids(job.g)
    ensures var t := Table(Restrict(status, order[..k]), Restrict(results, order[..k]));
            Record(job, order[k], t) == Some(Table(Restrict(status, order[..k + 1]), Restrict(results, order[..k + 1])))
  {
    hide Record, JobVerdict, Acyclic, UniqueIds, KnownDeps, Edge;
    var x := order[k];
    var init := order[..k];
    assert order[..k + 1] == init + [x];
    assert x in Elems(order);
    var t := Table(Restrict(status, init), Restrict(results, init));
    forall d | d in DepsOf(job.g, x)
      ensures (d in t.results <==> d in results) && (d in t.results ==> t.results[d] == results[d])
    {
      DepKnown(job.g, x, d);
      assert d in order[..k];
    }
    SameUpstream(job.g, x, t.results, results);
    RecordMatches(job, x, t, status, results);
    RestrictAdd(status, init, x);
    RestrictAdd(results, init, x);
  }

  lemma {:induction false} SequentialPrefix(job: Job, order: seq<Id>, k: nat, status: map<Id, Status>, results: map<Id, Payload>)
    requires ValidJob(job) && TopologicalOrder(job.g, order) && IsOutcome(job, status, results) && k <= |order|
    ensures Elems(order[..k]) <= Ids(job.g)
    ensures RunInOrder(job, order[..k]) == Some(Table(Restrict(status, order[..k]), Restrict(results, order[..k])))
  {
    hide Record, IsOutcome, DepsFirst, ValidJob, NoDup;
    assert Elems(order[..k]) <= Elems(order);
    if k == 0 {
      assert Restrict(status, order[..0]) == map[];
      assert Restrict(results, order[..0]) == map[];
    } else {
      SequentialPrefix(job, order, k - 1, status, results);
      SequentialStep(job, order, k - 1, status, results);
      assert order[..k][..k - 1] == order[..k - 1];
    }
  }

  lemma RecordMatches(job: Job, x: Id, t: Table, status: map<Id, Status>, results: map<Id, Payload>)
    requires x in Ids(job.g) && x in status && SettledAt(job, x, status, results)
    requires Upstream(job.g, x, t.results) == Upstream(job.g, x, results)
    ensures Record(job, x, t)
            == Some(Table(t.status[x := status[x]], if x in results then t.results[x := results[x]] else t.results))
  {
  }

  /** A complete result is what running the nodes one by one in any dependency order gives. */
  lemma OutcomeIsSequential(job: Job, order: seq<Id>, status: map<Id, Status>, results: map<Id, Payload>)
    requires ValidJob(job) && TopologicalOrder(job.g, order) && IsOutcome(job, status, results)
    ensures Elems(order) == Ids(job.g) && RunInOrder(job, order) == Some(Table(status, results))
  {
    hide ValidJob, DepsFirst, SettledAt, RunInOrder, NoDup, Restrict;
    SequentialPrefix(job, order, |order|, status, results);
    assert order[..|order|] == order;
    RestrictAll(status, order);
    RestrictAll(results, order);
  }

  lemma RestrictAll<T>(m: map<Id, T>, keys: seq<Id>)
    requires m.Keys <= Elems(keys)
    ensures Restrict(m, keys) == m
  {
    forall x | x in m ensures x in keys {
      assert x in Elems(keys);
    }
  }

  /** Every listed node has settled in the table built so far. */
  ghost predicate Tabulates(job: Job, listed: seq<Id>, t: Table) {
    && t.status.Keys == Elems(listed) && t.results.Keys <= Elems(listed) && Elems(listed) <= Ids(job.g)
    && forall y :: y in t.status ==> SettledAt(job, y, t.status, t.results)
  }

  lemma RecordKeeps(job: Job, listed: seq<Id>, x: Id, t: Table, t': Table, y: Id)
    requires Tabulates(job, listed, t) && x in Ids(job.g) && x !in listed && Record(job, x, t) == Some(t')
    requires y in listed && x !in DepsOf(job.g, y)
    ensures y in t'.status && SettledAt(job, y, t'.status, t'.results)
  {
    assert y in Elems(listed);
    assert x !in Elems(listed);
    SameUpstream(job.g, y, t.results, t'.results);
  }

  lemma RecordSettles(job: Job, listed: seq<Id>, x: Id, t: Table, t': Table)
    requires Tabulates(job, listed, t) && x in Ids(job.g) && x !in listed && Record(job, x, t) == Some(t')
    requires x !in DepsOf(job.g, x)
    ensures x in t'.status && SettledAt(job, x, t'.status, t'.results)
    ensures t'.status.Keys == Elems(listed) + {x} && t'.results.Keys <= Elems(listed) + {x}
  {
    assert x !in Elems(listed);
    SameUpstream(job.g, x, t.results, t'.results);
  }

  lemma DepsBefore(g: seq<Node>, order: seq<Id>, k: nat, j: nat)
    requires WellFormed(g) && TopologicalOrder(g, order) && j <= k < |order|
    ensures order[j] in Ids(g) && order[k] !in DepsOf(g, order[j])
  {
    assert order[j] in Elems(order);
    assert order[k] !in order[..j];
    EdgeIsDep(g, order[k], order[j]);
  }

  lemma {:induction false} SequentialTabulates(job: Job, order: seq<Id>, k: nat)
    requires ValidJob(job) && TopologicalOrder(job.g, order) && k <= |order|
    ensures Elems(order[..k]) <= Ids(job.g)
    ensures match RunInOrder(job, order[..k])
            case None => true
            case Some(t) => Tabulates(job, order[..k], t)
  {
    hide Record, SettledAt, Acyclic, KnownDeps, UniqueIds, DepsFirst;
    assert Elems(order[..k]) <= Elems(order);
    if k > 0 {
      SequentialTabulates(job, order, k - 1);
      var listed, x := order[..k - 1], order[k - 1];
      assert order[..k][..k - 1] == listed && order[..k] == listed + [x];
      assert Elems(order[..k]) == Elems(listed) + {x};
      assert x !in listed;
      match RunInOrder(job, listed)
      case None =>
      case Some(t) =>
        DepsBefore(job.g, order, k - 1, k - 1);
        match Record(job, x, t)
        case None =>
        case Some(t') =>
          RecordSettles(job, listed, x, t, t');
          forall y | y in t'.status ensures SettledAt(job, y, t'.status, t'.results) {
            if y != x {
              assert y in Elems(listed);
              var j :| 0 <= j < k - 1 && order[j] == y;
              DepsBefore(job.g, order, k - 1, j);
              RecordKeeps(job, listed, x, t, t', y);
            }
          }
    }
  }

  /** A sequential run that completes gives a complete result. */
  lemma SequentialIsOutcome(job: Job, order: seq<Id>)
    requires ValidJob(job) && TopologicalOrder(job.g, order)
    ensures Elems(order) == Ids(job.g)
    ensures RunInOrder(job, order).Some? ==>
              IsOutcome(job, RunInOrder(job, order).value.status, RunInOrder(job, order).value.results)
  {
    hide SettledAt, Acyclic, KnownDeps, UniqueIds, DepsFirst, RunInOrder;
    SequentialTabulates(job, order, |order|);
    assert order[..|order|] == order;
  }
}
