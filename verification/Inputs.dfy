/** What a node is run on and how it ends, said of the callbacks alone: the other reading of the definitions in DagState. */
module Inputs {
  import opened Graph
  import opened Wrappers
  import opened DagState

  /** up holds the results of exactly those listed nodes that have one. */
  ghost predicate Gathers(deps: seq<Id>, results: map<Id, Payload>, up: map<Id, Payload>) {
    && (forall d :: d in up <==> d in deps && d in results)
    && (forall d :: d in up ==> up[d] == results[d])
  }

  /** The stretch of a joined list that belongs to the i-th dependency: its messages if it has a result, else none. */
  ghost predicate Stretch(deps: seq<Id>, results: map<Id, Payload>, msgs: seq<Message>, cuts: seq<nat>, i: nat)
    requires |cuts| == |deps| + 1 && i < |deps|
  {
    && cuts[i] <= cuts[i + 1] <= |msgs|
    && msgs[cuts[i]..cuts[i + 1]] == if deps[i] in results then results[deps[i]].messages else []
  }

  ghost predicate CutAt(deps: seq<Id>, results: map<Id, Payload>, msgs: seq<Message>, cuts: seq<nat>) {
    && |cuts| == |deps| + 1 && cuts[0] == 0 && cuts[|deps|] == |msgs|
    && forall i: nat :: i < |deps| ==> Stretch(deps, results, msgs, cuts, i)
  }

  /** The messages of the dependencies with a result, one after another in declaration order. */
  ghost predicate Joined(deps: seq<Id>, results: map<Id, Payload>, msgs: seq<Message>) {
    exists cuts :: CutAt(deps, results, msgs, cuts)
  }

  /** req is what x is to be run on: what its mapper makes of the results below it; without one the original request for
      a node without dependencies, the one dependency's messages, or the messages of all joined. A single dependency
      without a result leaves the original request. */
  ghost predicate FedWith(job: Job, x: Id, results: map<Id, Payload>, req: Payload)
    requires x in Ids(job.g)
  {
    var deps := DepsOf(job.g, x);
    if x in job.cfg.mapper then exists up :: Gathers(deps, results, up) && job.cfg.mapper[x](up) == Some(req)
    else
      && (|deps| == 0 ==> req == job.request)
      && (|deps| == 1 ==> req == if deps[0] in results then results[deps[0]] else job.request)
      && (|deps| >= 2 ==> Joined(deps, results, req.messages))
  }

  ghost predicate NoInput(job: Job, x: Id, results: map<Id, Payload>)
    requires x in Ids(job.g)
  {
    x in job.cfg.mapper && exists up :: Gathers(DepsOf(job.g, x), results, up) && job.cfg.mapper[x](up) == None
  }

  /** The node's condition turns it down. */
  ghost predicate Blocked(job: Job, x: Id, results: map<Id, Payload>)
    requires x in Ids(job.g)
  {
    x in job.cfg.condition && exists up :: Gathers(DepsOf(job.g, x), results, up) && !job.cfg.condition[x](up)
  }

  predicate Recovers(cfg: Config) {
    cfg.strategy == Compensate && cfg.compensation == Some(ForwardRecovery)
  }

  /** A failure of x does not stop the run. */
  predicate Tolerated(cfg: Config, x: Id) {
    x in cfg.optional && cfg.strategy != Abort && !(cfg.strategy == Compensate && cfg.compensation.Some?)
  }

  /** Run on req, x yields resp, at once or, where that is configured, by recovery from a failure that is no suspension. */
  predicate Yields(cfg: Config, x: Id, req: Payload, resp: Payload) {
    || cfg.run(x, req) == Success(resp)
    || (Recovers(cfg) && cfg.run(x, req) == Failure(false) && cfg.recover(x, req) == Some(resp))
  }

  ghost predicate Produces(job: Job, x: Id, results: map<Id, Payload>, resp: Payload)
    requires x in Ids(job.g)
  {
    !Blocked(job, x, results) && exists req :: FedWith(job, x, results, req) && Yields(job.cfg, x, req, resp)
  }

  /** x cannot be given a request, or fails on it beyond recovery. */
  ghost predicate Breaks(job: Job, x: Id, results: map<Id, Payload>)
    requires x in Ids(job.g)
  {
    && !Blocked(job, x, results)
    && (NoInput(job, x, results)
        || exists req :: FedWith(job, x, results, req) && job.cfg.run(x, req).Failure?
                         && !(Recovers(job.cfg) && job.cfg.run(x, req) == Failure(false) && job.cfg.recover(x, req).Some?))
  }

  /** A node that was started: its condition let it pass, and it was launched on its request, or had none. */
  ghost predicate Served(job: Job, x: Id, results: map<Id, Payload>, launched: map<Id, Payload>) {
    && x in Ids(job.g)
    && !Blocked(job, x, results)
    && if x in launched then FedWith(job, x, results, launched[x]) else NoInput(job, x, results)
  }

  // ---- the two readings agree

  lemma GathersUpstream(job: Job, x: Id, results: map<Id, Payload>, up: map<Id, Payload>)
    requires x in Ids(job.g)
    ensures Gathers(DepsOf(job.g, x), results, up) <==> up == Upstream(job.g, x, results)
  {
  }

  lemma CutOneMore(deps: seq<Id>, results: map<Id, Payload>, rest: seq<Message>, cuts: seq<nat>, more: seq<Message>)
    requires deps != [] && CutAt(deps[..|deps| - 1], results, rest, cuts)
    requires more == if deps[|deps| - 1] in results then results[deps[|deps| - 1]].messages else []
    ensures CutAt(deps, results, rest + more, cuts + [|rest| + |more|])
  {
    var last, msgs, all := |deps| - 1, rest + more, cuts + [|rest| + |more|];
    forall i: nat | i < |deps| ensures Stretch(deps, results, msgs, all, i) {
      if i < last {
        assert Stretch(deps[..last], results, rest, cuts, i);
        assert msgs[all[i]..all[i + 1]] == rest[cuts[i]..cuts[i + 1]];
      }
    }
  }

  lemma {:induction false} ConcatIsCut(deps: seq<Id>, results: map<Id, Payload>, up: map<Id, Payload>) returns (cuts: seq<nat>)
    requires forall d :: d in deps ==> (d in up <==> d in results) && (d in up ==> up[d] == results[d])
    ensures CutAt(deps, results, Concat(deps, up), cuts)
  {
    if deps == [] {
      cuts := [0];
    } else {
      hide CutAt;
      var last := |deps| - 1;
      var before := ConcatIsCut(deps[..last], results, up);
      var more := if deps[last] in results then results[deps[last]].messages else [];
      assert deps[last] in deps;
      cuts := before + [|Concat(deps[..last], up)| + |more|];
      CutOneMore(deps, results, Concat(deps[..last], up), before, more);
    }
  }

  lemma {:induction false} CutIsConcat(deps: seq<Id>, results: map<Id, Payload>, up: map<Id, Payload>, msgs: seq<Message>, cuts: seq<nat>)
    requires forall d :: d in deps ==> (d in up <==> d in results) && (d in up ==> up[d] == results[d])
    requires CutAt(deps, results, msgs, cuts)
    ensures msgs == Concat(deps, up)
    decreases |deps|
  {
    if deps != [] {
      var last := |deps| - 1;
      assert Stretch(deps, results, msgs, cuts, last);
      assert deps[last] in deps;
      var rest := msgs[..cuts[last]];
      assert msgs == rest + msgs[cuts[last]..cuts[|deps|]];
      forall i: nat | i < last ensures Stretch(deps[..last], results, rest, cuts[..|deps|], i) {
        StretchWithin(deps, results, msgs, cuts, i);
      }
      CutIsConcat(deps[..last], results, up, rest, cuts[..|deps|]);
    }
  }

  lemma {:induction false} CutsRise(deps: seq<Id>, results: map<Id, Payload>, msgs: seq<Message>, cuts: seq<nat>, i: nat, j: nat)
    requires CutAt(deps, results, msgs, cuts) && i <= j <= |deps|
    ensures cuts[i] <= cuts[j]
    decreases j
  {
    if i < j {
      CutsRise(deps, results, msgs, cuts, i, j - 1);
      assert Stretch(deps, results, msgs, cuts, j - 1);
    }
  }

  lemma StretchWithin(deps: seq<Id>, results: map<Id, Payload>, msgs: seq<Message>, cuts: seq<nat>, i: nat)
    requires deps != [] && CutAt(deps, results, msgs, cuts) && i < |deps| - 1 && cuts[|deps| - 1] <= |msgs|
    ensures Stretch(deps[..|deps| - 1], results, msgs[..cuts[|deps| - 1]], cuts[..|deps|], i)
  {
    assert Stretch(deps, results, msgs, cuts, i);
    CutsRise(deps, results, msgs, cuts, i + 1, |deps| - 1);
    assert msgs[..cuts[|deps| - 1]][cuts[i]..cuts[i + 1]] == msgs[cuts[i]..cuts[i + 1]];
  }

  lemma JoinedIsConcat(job: Job, x: Id, results: map<Id, Payload>, msgs: seq<Message>)
    requires x in Ids(job.g)
    ensures Joined(DepsOf(job.g, x), results, msgs) <==> msgs == Concat(DepsOf(job.g, x), Upstream(job.g, x, results))
  {
    hide CutAt;
    var deps, up := DepsOf(job.g, x), Upstream(job.g, x, results);
    var cuts := ConcatIsCut(deps, results, up);
    if Joined(deps, results, msgs) {
      var given :| CutAt(deps, results, msgs, given);
      CutIsConcat(deps, results, up, msgs, given);
    }
  }

  /** The request that is built is the one x is to be run on, and there is none exactly if it has no input. */
  lemma InputIsFed(job: Job, x: Id, results: map<Id, Payload>, req: Payload)
    requires x in Ids(job.g)
    ensures var built := NodeInput(job.cfg, job.request, x, DepsOf(job.g, x), Upstream(job.g, x, results));
            && (FedWith(job, x, results, req) <==> built == Some(req))
            && (NoInput(job, x, results) <==> built == None)
  {
    hide Joined, Gathers, Concat, Upstream;
    var up := Upstream(job.g, x, results);
    GathersUpstream(job, x, results, up);
    forall other ensures Gathers(DepsOf(job.g, x), results, other) <==> other == up {
      GathersUpstream(job, x, results, other);
    }
    JoinedIsConcat(job, x, results, req.messages);
    if |DepsOf(job.g, x)| == 1 {
      UpstreamAt(job, x, results, DepsOf(job.g, x)[0]);
    }
  }

  lemma UpstreamAt(job: Job, x: Id, results: map<Id, Payload>, d: Id)
    requires x in Ids(job.g) && d in DepsOf(job.g, x)
    ensures var up := Upstream(job.g, x, results); (d in up <==> d in results) && (d in up ==> up[d] == results[d])
  {
  }

  lemma BlockedIs(job: Job, x: Id, results: map<Id, Payload>)
    requires x in Ids(job.g)
    ensures Blocked(job, x, results) <==> !ConditionHolds(job.cfg, x, Upstream(job.g, x, results))
  {
    hide Gathers, Upstream;
    forall up ensures Gathers(DepsOf(job.g, x), results, up) <==> up == Upstream(job.g, x, results) {
      GathersUpstream(job, x, results, up);
    }
  }

  /** The verdict on a node, in terms of what its callbacks answer. */
  lemma VerdictMeans(job: Job, x: Id, results: map<Id, Payload>)
    requires x in Ids(job.g)
    ensures forall resp :: JobVerdict(job, x, results) == Settles(resp) <==> Produces(job, x, results, resp)
    ensures JobVerdict(job, x, results) == IsSkipped
            <==> Blocked(job, x, results) || (Breaks(job, x, results) && Tolerated(job.cfg, x))
    ensures JobVerdict(job, x, results) == StopsRun <==> Breaks(job, x, results) && !Tolerated(job.cfg, x)
  {
    hide FedWith, NoInput, Blocked, NodeInput, ConditionHolds, Upstream;
    BlockedIs(job, x, results);
    forall req
      ensures FedWith(job, x, results, req)
              <==> NodeInput(job.cfg, job.request, x, DepsOf(job.g, x), Upstream(job.g, x, results)) == Some(req)
    {
      InputIsFed(job, x, results, req);
    }
    InputIsFed(job, x, results, job.request);
  }

  /** x has ended as its callbacks and the results below it demand. */
  ghost predicate Accounted(job: Job, x: Id, status: map<Id, Status>, results: map<Id, Payload>)
    requires x in Ids(job.g) && x in status
  {
    if x in job.restored then status[x] == Done && x in results && results[x] == job.restored[x]
    else
      || (status[x] == Done && x in results && Produces(job, x, results, results[x]))
      || (status[x] == Skipped && x !in results && (Blocked(job, x, results) || (Breaks(job, x, results) && Tolerated(job.cfg, x))))
  }

  lemma AccountedIs(job: Job, x: Id, status: map<Id, Status>, results: map<Id, Payload>)
    requires x in Ids(job.g) && x in status
    ensures SettledAt(job, x, status, results) <==> Accounted(job, x, status, results)
  {
    hide Produces, Blocked, Breaks, JobVerdict, Tolerated;
    VerdictMeans(job, x, results);
  }

  /** A complete result accounts for every node, and a table that does so is one. */
  lemma OutcomeMeans(job: Job, status: map<Id, Status>, results: map<Id, Payload>)
    ensures IsOutcome(job, status, results)
            <==> && status.Keys == Ids(job.g) && results.Keys <= Ids(job.g)
                 && forall x :: x in status ==> Accounted(job, x, status, results)
  {
    hide SettledAt, Accounted;
    if status.Keys == Ids(job.g) {
      forall x | x in status ensures SettledAt(job, x, status, results) <==> Accounted(job, x, status, results) {
        AccountedIs(job, x, status, results);
      }
    }
  }

  /** Every entry of the sequential table is what its node's callbacks give on the entries below it. */
  lemma SequentialMeans(job: Job, order: seq<Id>)
    requires ValidJob(job) && TopologicalOrder(job.g, order)
    ensures Elems(order) == Ids(job.g)
    ensures RunInOrder(job, order).Some? ==>
              var t := RunInOrder(job, order).value;
              t.status.Keys == Ids(job.g) && forall x :: x in t.status ==> Accounted(job, x, t.status, t.results)
  {
    hide IsOutcome, RunInOrder, Accounted, ValidJob, TopologicalOrder;
    SequentialIsOutcome(job, order);
    if RunInOrder(job, order).Some? {
      OutcomeMeans(job, RunInOrder(job, order).value.status, RunInOrder(job, order).value.results);
    }
  }

  // ---- what was launched stays so

  lemma SameServed(job: Job, x: Id, r1: map<Id, Payload>, r2: map<Id, Payload>, launched: map<Id, Payload>)
    requires Served(job, x, r1, launched)
    requires forall d :: d in DepsOf(job.g, x) ==> (d in r1 <==> d in r2) && (d in r1 ==> r1[d] == r2[d])
    ensures Served(job, x, r2, launched)
  {
    hide FedWith, NoInput, Blocked, NodeInput, ConditionHolds, Upstream;
    SameUpstream(job.g, x, r1, r2);
    BlockedIs(job, x, r1);
    BlockedIs(job, x, r2);
    var req := if x in launched then launched[x] else job.request;
    InputIsFed(job, x, r1, req);
    InputIsFed(job, x, r2, req);
  }
}
