/** The invariant of the event loop and the effect of each of its atomic steps on it. */
module DagInvariant {
  import opened Graph
  import opened Wrappers
  import opened DagState
  import opened Inputs
  import Topo

  /** Where the loop is between two of its steps: decrements still owed to dependents, ready nodes not yet
      handled, the completion being handled, and nodes started but not yet counted as active. */
  datatype Phase = Phase(debt: multiset<Id>, todo: set<Id>, popped: set<Id>, uncounted: nat, exit: set<Id>)

  const IDLE := Phase(multiset{}, {}, {}, 0, {})

  ghost function With(status: map<Id, Status>, st: Status): set<Id> {
    set x | x in status && status[x] == st
  }

  /** Nodes counted by pending. */
  ghost function Active(status: map<Id, Status>): set<Id> {
    With(status, Pending) + With(status, Running)
  }

  ghost function Terminal(status: map<Id, Status>): set<Id> {
    With(status, Done) + With(status, Skipped)
  }

  ghost function ChanIds(ch: seq<Completion>): set<Id> {
    set c | c in ch :: c.id
  }

  ghost function QueueIds(q: seq<Item>): set<Id> {
    set i | i in q :: i.id
  }

  ghost predicate Shaped(job: Job, status: map<Id, Status>, results: map<Id, Payload>, popped: set<Id>) {
    && status.Keys == Ids(job.g)
    && results.Keys == With(status, Done)
    && (forall x :: x in status ==> status[x] in {Pending, Running, Done, Skipped} || x in popped)
    && (forall x :: x in popped ==> x in status && status[x] in {Running, Failed})
  }

  /** inDegree counts the dependency occurrences not yet Done or Skipped, plus what is still owed. */
  ghost predicate Degrees(g: seq<Node>, inDegree: map<Id, int>, ended: set<Id>, debt: multiset<Id>) {
    && inDegree.Keys == Ids(g)
    && forall x :: x in inDegree ==> inDegree[x] == Remaining(DepsOf(g, x), ended) + debt[x]
  }

  ghost predicate Counted(cfg: Config, status: map<Id, Status>, pending: int, activePQ: int, popped: set<Id>, uncounted: nat) {
    && pending == |Active(status) - popped|
    && (cfg.prioritized ==> activePQ + uncounted == |With(status, Running) - popped|)
    && (cfg.prioritized && cfg.maxConcurrency > 0 ==> |With(status, Running) - popped| <= cfg.maxConcurrency)
  }

  /** Every Running node owes exactly one completion: it is in flight, in the channel, or being handled. */
  ghost predicate Owed(status: map<Id, Status>, inFlight: set<Id>, doneCh: seq<Completion>, popped: set<Id>) {
    && With(status, Running) - popped == inFlight + ChanIds(doneCh)
    && inFlight !! ChanIds(doneCh)
    && inFlight !! popped && ChanIds(doneCh) !! popped
    && (forall i, j :: 0 <= i < j < |doneCh| ==> doneCh[i].id != doneCh[j].id)
  }

  ghost predicate Queued(cfg: Config, status: map<Id, Status>, inDegree: map<Id, int>, queue: seq<Item>, todo: set<Id>) {
    && (!cfg.prioritized ==> queue == [])
    && (forall i, j :: 0 <= i < j < |queue| ==> queue[i].id != queue[j].id)
    && (forall x :: x in QueueIds(queue) ==> x in status && status[x] == Pending && x in inDegree && inDegree[x] == 0)
    && (forall x :: x in status && status[x] == Pending && x in inDegree && inDegree[x] == 0 ==>
          x in todo || x in QueueIds(queue))
  }

  ghost predicate DepsTerminal(g: seq<Node>, status: map<Id, Status>, x: Id) {
    x in Ids(g) && forall d :: d in DepsOf(g, x) ==> d in Terminal(status)
  }

  /** A node is started at most once, and only after all its dependencies have ended. */
  ghost predicate Started(job: Job, status: map<Id, Status>, started: seq<Id>) {
    && NoDup(started)
    && (forall x :: x in started ==> x in status && status[x] != Pending && x !in job.restored)
    && (forall x :: x in With(status, Running) ==> x in started)
    && (forall x :: x in job.restored ==> x in status && status[x] == Done)
    && (forall x :: x in status && status[x] != Pending && x !in job.restored ==> DepsTerminal(job.g, status, x))
  }

  ghost predicate Right(job: Job, x: Id, status: map<Id, Status>, results: map<Id, Payload>) {
    x in Ids(job.g) && x in status && SettledAt(job, x, status, results)
  }

  ghost predicate MayRun(job: Job, x: Id, results: map<Id, Payload>) {
    x in Ids(job.g) && ConditionHolds(job.cfg, x, Upstream(job.g, x, results))
  }

  ghost predicate Reports(job: Job, c: Completion, results: map<Id, Payload>) {
    && c.id in Ids(job.g)
    && c.outcome == NodeOutcome(job.cfg, job.request, c.id, DepsOf(job.g, c.id), Upstream(job.g, c.id, results))
  }

  ghost predicate Carries(job: Job, x: Id, req: Payload, results: map<Id, Payload>) {
    && x in Ids(job.g)
    && NodeInput(job.cfg, job.request, x, DepsOf(job.g, x), Upstream(job.g, x, results)) == Some(req)
  }

  /** Until a cancellation, what has ended is right, and so is what is on its way. */
  ghost predicate Truthful(job: Job, status: map<Id, Status>, results: map<Id, Payload>,
                           inFlight: map<Id, Payload>, doneCh: seq<Completion>) {
    && (forall x :: x in Terminal(status) ==> Right(job, x, status, results))
    && (forall x :: x in With(status, Running) ==> MayRun(job, x, results))
    && (forall c :: c in doneCh ==> Reports(job, c, results))
    && (forall x :: x in inFlight ==> Carries(job, x, inFlight[x], results))
  }

  /** Every started node was served from the results below it, which no longer change; what is in flight is what was
      launched. */
  ghost predicate Fed(job: Job, status: map<Id, Status>, results: map<Id, Payload>, started: seq<Id>,
                      inFlight: map<Id, Payload>, launched: map<Id, Payload>)
  {
    && (forall x :: x in started ==> DepsTerminal(job.g, status, x) && Served(job, x, results, launched))
    && (forall x :: x in launched ==> x in started)
    && (forall x :: x in inFlight ==> x in launched && launched[x] == inFlight[x])
  }

  ghost predicate Inv(job: Job, s: State, ph: Phase) {
    && Shaped(job, s.status, s.results, ph.popped)
    && Degrees(job.g, s.inDegree, Terminal(s.status), ph.debt)
    && Counted(job.cfg, s.status, s.pending, s.activePQ, ph.popped, ph.uncounted)
    && Owed(s.status, s.inFlight.Keys, s.doneCh, ph.popped)
    && Queued(job.cfg, s.status, s.inDegree, s.queue, ph.todo)
    && Started(job, s.status, s.started)
    && Fed(job, s.status, s.results, s.started, s.inFlight, s.launched)
    && (!s.cancelled ==> Truthful(job, s.status, s.results, s.inFlight, s.doneCh))
  }

  // ---- effects of a status change

  lemma WithSet(status: map<Id, Status>, id: Id, st: Status, k: Status)
    requires id in status
    ensures With(status[id := st], k) == if k == st then With(status, k) + {id} else With(status, k) - {id}
  {
    var status' := status[id := st];
    assert forall x :: x in With(status', k) <==> x in status' && status'[x] == k;
  }

  lemma StatusSets(status: map<Id, Status>, id: Id, st: Status)
    requires id in status
    ensures With(status[id := st], Pending) == if st == Pending then With(status, Pending) + {id} else With(status, Pending) - {id}
    ensures With(status[id := st], Running) == if st == Running then With(status, Running) + {id} else With(status, Running) - {id}
    ensures With(status[id := st], Done) == if st == Done then With(status, Done) + {id} else With(status, Done) - {id}
    ensures With(status[id := st], Skipped) == if st == Skipped then With(status, Skipped) + {id} else With(status, Skipped) - {id}
  {
    hide With;
    WithSet(status, id, st, Pending);
    WithSet(status, id, st, Running);
    WithSet(status, id, st, Done);
    WithSet(status, id, st, Skipped);
  }

  lemma OneLess(S: set<Id>, x: Id)
    requires x in S
    ensures |S - {x}| == |S| - 1
  {
  }

  lemma TerminalGrows(status: map<Id, Status>, id: Id, st: Status)
    requires id in status && status[id] !in {Done, Skipped} && st in {Done, Skipped}
    ensures Terminal(status[id := st]) == Terminal(status) + {id}
    ensures status[id] != Running ==> With(status[id := st], Running) == With(status, Running)
  {
    StatusSets(status, id, st);
  }

  /** An ended node turns each of its occurrences below into a debt. */
  lemma DegreesEnd(g: seq<Node>, inDegree: map<Id, int>, ended: set<Id>, debt: multiset<Id>, id: Id)
    requires UniqueIds(g) && Degrees(g, inDegree, ended, debt) && id !in ended
    ensures Degrees(g, inDegree, ended + {id}, debt + multiset(Topo.Downstream(g, id)))
  {
    forall x | x in inDegree
      ensures inDegree[x] == Remaining(DepsOf(g, x), ended + {id}) + (debt + multiset(Topo.Downstream(g, id)))[x]
    {
      RemainingAdd(DepsOf(g, x), ended, id);
      Topo.DownstreamCounts(g, id, x);
    }
  }

  lemma DegreesPay(g: seq<Node>, inDegree: map<Id, int>, ended: set<Id>, debt: multiset<Id>, x: Id)
    requires Degrees(g, inDegree, ended, debt) && x in debt && x in Ids(g)
    ensures inDegree[x] >= 1
    ensures Degrees(g, inDegree[x := inDegree[x] - 1], ended, debt - multiset{x})
  {
  }

  lemma ReadyDeps(g: seq<Node>, inDegree: map<Id, int>, status: map<Id, Status>, debt: multiset<Id>, x: Id)
    requires Degrees(g, inDegree, Terminal(status), debt) && x in inDegree && inDegree[x] == 0
    ensures DepsTerminal(g, status, x)
  {
    RemainingZero(DepsOf(g, x), Terminal(status));
  }

  /** One owed decrement is paid; a Pending node that reaches zero becomes ready. */
  lemma Decrement(job: Job, s: State, ph: Phase, x: Id)
    requires Inv(job, s, ph) && x in ph.debt && x in Ids(job.g)
    ensures x in s.inDegree && x in s.status && s.inDegree[x] >= 1
    ensures var left := s.inDegree[x] - 1;
            var ready := if left == 0 && s.status[x] == Pending then {x} else {};
            Inv(job, s.(inDegree := s.inDegree[x := left]), ph.(debt := ph.debt - multiset{x}, todo := ph.todo + ready))
  {
    hide Truthful, Started, Owed, Counted, Fed, Served;
    DegreesPay(job.g, s.inDegree, Terminal(s.status), ph.debt, x);
  }

  // ---- a ready node leaves Pending, as Skipped or as Running

  ghost predicate Leaves(status: map<Id, Status>, id: Id, st: Status) {
    id in status && status[id] == Pending && (st == Skipped || st == Running)
  }

  lemma LeaveShaped(job: Job, status: map<Id, Status>, results: map<Id, Payload>, popped: set<Id>, id: Id, st: Status)
    requires Shaped(job, status, results, popped) && Leaves(status, id, st)
    ensures Shaped(job, status[id := st], results, popped)
  {
    StatusSets(status, id, st);
  }

  lemma LeaveQueued(cfg: Config, status: map<Id, Status>, inDegree: map<Id, int>, queue: seq<Item>, todo: set<Id>, id: Id, st: Status)
    requires Queued(cfg, status, inDegree, queue, todo) && Leaves(status, id, st) && id !in QueueIds(queue)
    ensures Queued(cfg, status[id := st], inDegree, queue, todo - {id})
  {
  }

  lemma LeaveStarted(job: Job, status: map<Id, Status>, started: seq<Id>, id: Id, st: Status)
    requires Started(job, status, started) && Leaves(status, id, st) && DepsTerminal(job.g, status, id)
    ensures id !in job.restored && id !in started
    ensures Started(job, status[id := st], if st == Running then started + [id] else started)
  {
    var status' := status[id := st];
    StatusSets(status, id, st);
    forall x | x in status' && status'[x] != Pending && x !in job.restored ensures DepsTerminal(job.g, status', x) {
      assert DepsTerminal(job.g, status, x);
    }
  }

  /** Ended nodes stay ended, so what was served stays so. */
  lemma FedStays(job: Job, status: map<Id, Status>, status': map<Id, Status>, results: map<Id, Payload>, started: seq<Id>,
                 inFlight: map<Id, Payload>, launched: map<Id, Payload>)
    requires Fed(job, status, results, started, inFlight, launched) && Terminal(status) <= Terminal(status')
    ensures Fed(job, status', results, started, inFlight, launched)
  {
    hide Served, Terminal;
    forall x | x in started ensures DepsTerminal(job.g, status', x) {
      assert DepsTerminal(job.g, status, x);
    }
  }

  lemma FedLaunch(job: Job, s: State, id: Id, req: Payload)
    requires Fed(job, s.status, s.results, s.started, s.inFlight, s.launched) && id !in s.started
    requires DepsTerminal(job.g, s.status, id) && MayRun(job, id, s.results) && Carries(job, id, req, s.results)
    ensures Fed(job, s.status, s.results, s.started + [id], s.inFlight[id := req], s.launched[id := req])
  {
    hide Blocked, FedWith, NoInput, ConditionHolds, NodeInput, DepsTerminal;
    BlockedIs(job, id, s.results);
    InputIsFed(job, id, s.results, req);
    forall x | x in s.started ensures Served(job, x, s.results, s.launched[id := req]) {
      assert Served(job, x, s.results, s.launched);
    }
  }

  lemma FedReport(job: Job, s: State, id: Id)
    requires Fed(job, s.status, s.results, s.started, s.inFlight, s.launched) && id !in s.started
    requires DepsTerminal(job.g, s.status, id) && MayRun(job, id, s.results) && NoInput(job, id, s.results)
    ensures Fed(job, s.status, s.results, s.started + [id], s.inFlight, s.launched)
  {
    hide Blocked, FedWith, NoInput, ConditionHolds, NodeInput, DepsTerminal;
    BlockedIs(job, id, s.results);
  }

  lemma FedSettle(job: Job, s: State, id: Id, resp: Payload)
    requires Fed(job, s.status, s.results, s.started, s.inFlight, s.launched) && id !in Terminal(s.status)
    ensures Fed(job, s.status, s.results[id := resp], s.started, s.inFlight, s.launched)
  {
    hide Served, Terminal;
    forall x | x in s.started ensures Served(job, x, s.results[id := resp], s.launched) {
      assert DepsTerminal(job.g, s.status, x);
      KnownServed(job, x, s.results, s.launched);
      SameServed(job, x, s.results, s.results[id := resp], s.launched);
    }
  }

  lemma KnownServed(job: Job, x: Id, results: map<Id, Payload>, launched: map<Id, Payload>)
    requires Served(job, x, results, launched)
    ensures x in Ids(job.g)
  {
  }

  lemma MinusLess(S: set<Id>, popped: set<Id>, x: Id)
    requires x in S && x !in popped
    ensures |S - {x} - popped| == |S - popped| - 1
  {
    assert S - {x} - popped == (S - popped) - {x};
  }

  lemma MinusMore(S: set<Id>, popped: set<Id>, x: Id)
    requires x !in S && x !in popped
    ensures |S + {x} - popped| == |S - popped| + 1
  {
    assert S + {x} - popped == (S - popped) + {x};
  }

  lemma CountedSkip(cfg: Config, status: map<Id, Status>, pending: int, activePQ: int, popped: set<Id>, uncounted: nat, id: Id)
    requires Counted(cfg, status, pending, activePQ, popped, uncounted) && id !in popped
    requires id in status && status[id] == Pending
    ensures Counted(cfg, status[id := Skipped], pending - 1, activePQ, popped, uncounted)
  {
    hide With;
    StatusSets(status, id, Skipped);
    PendingNode(status, id);
    assert Active(status[id := Skipped]) == Active(status) - {id};
    hide Active;
    MinusLess(Active(status), popped, id);
  }

  lemma PendingNode(status: map<Id, Status>, id: Id)
    requires id in status && status[id] == Pending
    ensures id in Active(status) && id in With(status, Pending) && With(status, Running) - {id} == With(status, Running)
  {
  }

  lemma CountedStart(cfg: Config, status: map<Id, Status>, pending: int, activePQ: int, popped: set<Id>, uncounted: nat, id: Id)
    requires Counted(cfg, status, pending, activePQ, popped, uncounted) && id !in popped
    requires id in status && status[id] == Pending
    requires HasRoom(cfg, status, popped)
    ensures Counted(cfg, status[id := Running], pending, activePQ, popped, uncounted + 1)
  {
    StatusSets(status, id, Running);
    assert id in With(status, Pending) && id !in With(status, Running);
    assert With(status[id := Running], Running) == With(status, Running) + {id};
    assert Active(status[id := Running]) == Active(status);
    hide With, Active;
    MinusMore(With(status, Running), popped, id);
  }

  lemma LeaveTruthful(job: Job, status: map<Id, Status>, results: map<Id, Payload>, inFlight: map<Id, Payload>,
                      doneCh: seq<Completion>, id: Id, st: Status)
    requires Truthful(job, status, results, inFlight, doneCh) && Leaves(status, id, st)
    requires st == Skipped ==> id in Ids(job.g) && id !in job.restored && id !in results && !MayRun(job, id, results)
    requires st == Running ==> MayRun(job, id, results)
    ensures Truthful(job, status[id := st], results, inFlight, doneCh)
  {
    hide Reports, Carries, MayRun;
    StatusSets(status, id, st);
    var status' := status[id := st];
    forall x | x in Terminal(status') ensures Right(job, x, status', results) {
      if x != id {
        assert Right(job, x, status, results);
      } else {
        SkippedIsRight(job, id, status, results);
      }
    }
  }

  lemma SkippedIsRight(job: Job, id: Id, status: map<Id, Status>, results: map<Id, Payload>)
    requires id in Ids(job.g) && id in status && id !in job.restored && id !in results && !MayRun(job, id, results)
    ensures Right(job, id, status[id := Skipped], results)
  {
  }

  lemma OwedSame(status: map<Id, Status>, status': map<Id, Status>, inFlight: set<Id>, doneCh: seq<Completion>, popped: set<Id>)
    requires Owed(status, inFlight, doneCh, popped) && With(status', Running) == With(status, Running)
    ensures Owed(status', inFlight, doneCh, popped)
  {
  }

  ghost predicate ReadyToLeave(job: Job, s: State, id: Id) {
    && id in s.status && s.status[id] == Pending
    && id in s.inDegree && s.inDegree[id] == 0
    && id !in QueueIds(s.queue)
  }

  lemma LeaveFacts(job: Job, s: State, ph: Phase, id: Id)
    requires ValidJob(job) && Inv(job, s, ph) && ReadyToLeave(job, s, id)
    ensures UniqueIds(job.g) && id in Ids(job.g) && id !in ph.popped && id !in s.results && id !in job.restored
    ensures id !in Terminal(s.status)
    ensures DepsTerminal(job.g, s.status, id)
  {
    ReadyDeps(job.g, s.inDegree, s.status, ph.debt, id);
  }

  lemma IsLeaving(job: Job, s: State, id: Id, st: Status)
    requires ReadyToLeave(job, s, id) && st in {Skipped, Running}
    ensures Leaves(s.status, id, st) && id in s.status && s.status[id] == Pending && id !in QueueIds(s.queue)
  {
  }

  /** A ready node whose condition fails ends as Skipped and owes its dependents a decrement each. */
  lemma SkipReady(job: Job, s: State, ph: Phase, id: Id)
    requires ValidJob(job) && Inv(job, s, ph) && ReadyToLeave(job, s, id)
    requires !MayRun(job, id, s.results)
    ensures Inv(job, s.(status := s.status[id := Skipped], pending := s.pending - 1),
                ph.(debt := ph.debt + multiset(Topo.Downstream(job.g, id)), todo := ph.todo - {id}))
  {
    hide ValidJob, ReadyToLeave, HasRoom, Leaves, UniqueIds, DepsTerminal, Ids;
    hide Shaped, Degrees, Counted, Owed, Queued, Started, Truthful, MayRun, Carries, Reports, Fed, Served;
    hide With, Terminal, Active, QueueIds, ChanIds, Topo.Downstream;
    LeaveFacts(job, s, ph, id);
    IsLeaving(job, s, id, Skipped);
    TerminalGrows(s.status, id, Skipped);
    LeaveShaped(job, s.status, s.results, ph.popped, id, Skipped);
    DegreesEnd(job.g, s.inDegree, Terminal(s.status), ph.debt, id);
    CountedSkip(job.cfg, s.status, s.pending, s.activePQ, ph.popped, ph.uncounted, id);
    OwedSame(s.status, s.status[id := Skipped], s.inFlight.Keys, s.doneCh, ph.popped);
    LeaveQueued(job.cfg, s.status, s.inDegree, s.queue, ph.todo, id, Skipped);
    LeaveStarted(job, s.status, s.started, id, Skipped);
    FedStays(job, s.status, s.status[id := Skipped], s.results, s.started, s.inFlight, s.launched);
    if !s.cancelled {
      LeaveTruthful(job, s.status, s.results, s.inFlight, s.doneCh, id, Skipped);
    }
  }

  // ---- a ready node starts

  ghost predicate HasRoom(cfg: Config, status: map<Id, Status>, popped: set<Id>) {
    cfg.prioritized && cfg.maxConcurrency > 0 ==> |With(status, Running) - popped| < cfg.maxConcurrency
  }

  lemma OwedLaunch(status: map<Id, Status>, inFlight: set<Id>, doneCh: seq<Completion>, popped: set<Id>, id: Id)
    requires Owed(status, inFlight, doneCh, popped) && id in status && status[id] == Pending && id !in popped
    ensures id !in inFlight && id !in ChanIds(doneCh)
    ensures Owed(status[id := Running], inFlight + {id}, doneCh, popped)
  {
    StatusSets(status, id, Running);
    assert id !in With(status, Running) - popped;
  }

  lemma OwedReport(status: map<Id, Status>, inFlight: set<Id>, doneCh: seq<Completion>, popped: set<Id>, id: Id, o: Outcome)
    requires Owed(status, inFlight, doneCh, popped) && id in status && status[id] == Pending && id !in popped
    ensures Owed(status[id := Running], inFlight, doneCh + [Completion(id, o)], popped)
  {
    StatusSets(status, id, Running);
    assert id !in With(status, Running) - popped;
    ChanAppend(doneCh, Completion(id, o));
  }

  lemma ChanAppend(doneCh: seq<Completion>, c: Completion)
    ensures ChanIds(doneCh + [c]) == ChanIds(doneCh) + {c.id}
  {
    var ch := doneCh + [c];
    assert c in ch;
    forall x | x in ChanIds(doneCh) + {c.id} ensures x in ChanIds(ch) {
      if x in ChanIds(doneCh) {
        var d :| d in doneCh && d.id == x;
        assert d in ch;
      }
    }
  }

  lemma TerminalSame(status: map<Id, Status>, id: Id)
    requires id in status && status[id] == Pending
    ensures Terminal(status[id := Running]) == Terminal(status)
  {
    StatusSets(status, id, Running);
  }

  lemma TruthfulLaunch(job: Job, status: map<Id, Status>, results: map<Id, Payload>, inFlight: map<Id, Payload>,
                       doneCh: seq<Completion>, id: Id, req: Payload)
    requires Truthful(job, status, results, inFlight, doneCh) && Leaves(status, id, Running)
    requires MayRun(job, id, results) && Carries(job, id, req, results)
    ensures Truthful(job, status[id := Running], results, inFlight[id := req], doneCh)
  {
    LeaveTruthful(job, status, results, inFlight, doneCh, id, Running);
    hide Carries, MayRun, Reports, Right;
  }

  lemma TruthfulReport(job: Job, status: map<Id, Status>, results: map<Id, Payload>, inFlight: map<Id, Payload>,
                       doneCh: seq<Completion>, id: Id, o: Outcome)
    requires Truthful(job, status, results, inFlight, doneCh) && Leaves(status, id, Running)
    requires MayRun(job, id, results) && Reports(job, Completion(id, o), results)
    ensures Truthful(job, status[id := Running], results, inFlight, doneCh + [Completion(id, o)])
  {
    LeaveTruthful(job, status, results, inFlight, doneCh, id, Running);
    hide Carries, MayRun, Reports, Right;
  }

  /** A ready node is launched: it now owes one completion. */
  lemma LaunchReady(job: Job, s: State, ph: Phase, id: Id, req: Payload)
    requires ValidJob(job) && Inv(job, s, ph) && ReadyToLeave(job, s, id) && HasRoom(job.cfg, s.status, ph.popped)
    requires MayRun(job, id, s.results) && Carries(job, id, req, s.results)
    ensures Inv(job, s.(status := s.status[id := Running], inFlight := s.inFlight[id := req], started := s.started + [id],
                    launched := s.launched[id := req]),
                ph.(todo := ph.todo - {id}, uncounted := ph.uncounted + 1))
  {
    hide ValidJob, ReadyToLeave, HasRoom, Leaves, UniqueIds, DepsTerminal, Ids;
    hide Shaped, Degrees, Counted, Owed, Queued, Started, Truthful, MayRun, Carries, Reports, Fed, Served;
    hide With, Terminal, Active, QueueIds, ChanIds, Topo.Downstream;
    LeaveFacts(job, s, ph, id);
    IsLeaving(job, s, id, Running);
    TerminalSame(s.status, id);
    assert s.inFlight[id := req].Keys == s.inFlight.Keys + {id};
    LeaveShaped(job, s.status, s.results, ph.popped, id, Running);
    CountedStart(job.cfg, s.status, s.pending, s.activePQ, ph.popped, ph.uncounted, id);
    OwedLaunch(s.status, s.inFlight.Keys, s.doneCh, ph.popped, id);
    LeaveQueued(job.cfg, s.status, s.inDegree, s.queue, ph.todo, id, Running);
    LeaveStarted(job, s.status, s.started, id, Running);
    FedLaunch(job, s, id, req);
    FedStays(job, s.status, s.status[id := Running], s.results, s.started + [id], s.inFlight[id := req], s.launched[id := req]);
    if !s.cancelled {
      TruthfulLaunch(job, s.status, s.results, s.inFlight, s.doneCh, id, req);
    }
  }

  /** A ready node whose request cannot be built reports its failure at once. */
  lemma ReportReady(job: Job, s: State, ph: Phase, id: Id)
    requires ValidJob(job) && Inv(job, s, ph) && ReadyToLeave(job, s, id) && HasRoom(job.cfg, s.status, ph.popped)
    requires MayRun(job, id, s.results) && Reports(job, Completion(id, Failure(false)), s.results) && NoInput(job, id, s.results)
    ensures Inv(job, s.(status := s.status[id := Running], doneCh := s.doneCh + [Completion(id, Failure(false))], started := s.started + [id]),
                ph.(todo := ph.todo - {id}, uncounted := ph.uncounted + 1))
  {
    hide ValidJob, ReadyToLeave, HasRoom, Leaves, UniqueIds, DepsTerminal, Ids;
    hide Shaped, Degrees, Counted, Owed, Queued, Started, Truthful, MayRun, Carries, Reports, Fed, Served;
    hide With, Terminal, Active, QueueIds, ChanIds, Topo.Downstream;
    LeaveFacts(job, s, ph, id);
    IsLeaving(job, s, id, Running);
    TerminalSame(s.status, id);
    LeaveShaped(job, s.status, s.results, ph.popped, id, Running);
    CountedStart(job.cfg, s.status, s.pending, s.activePQ, ph.popped, ph.uncounted, id);
    OwedReport(s.status, s.inFlight.Keys, s.doneCh, ph.popped, id, Failure(false));
    LeaveQueued(job.cfg, s.status, s.inDegree, s.queue, ph.todo, id, Running);
    LeaveStarted(job, s.status, s.started, id, Running);
    FedReport(job, s, id);
    FedStays(job, s.status, s.status[id := Running], s.results, s.started + [id], s.inFlight, s.launched);
    if !s.cancelled {
      TruthfulReport(job, s.status, s.results, s.inFlight, s.doneCh, id, Failure(false));
    }
  }

  // ---- the priority queue

  lemma QueueAppend(queue: seq<Item>, item: Item)
    ensures QueueIds(queue + [item]) == QueueIds(queue) + {item.id}
  {
    var q := queue + [item];
    assert item in q;
    forall x | x in QueueIds(queue) + {item.id} ensures x in QueueIds(q) {
      if x in QueueIds(queue) {
        var i :| i in queue && i.id == x;
        assert i in q;
      }
    }
  }

  lemma QueueRemove(queue: seq<Item>, i: nat)
    requires i < |queue| && forall j, k :: 0 <= j < k < |queue| ==> queue[j].id != queue[k].id
    ensures QueueIds(queue[..i] + queue[i + 1..]) == QueueIds(queue) - {queue[i].id}
    ensures queue[i].id in QueueIds(queue)
  {
    var q := queue[..i] + queue[i + 1..];
    assert queue[i] in queue;
    forall x ensures x in QueueIds(q) <==> x in QueueIds(queue) - {queue[i].id} {
      if x in QueueIds(q) {
        var m :| m in q && m.id == x;
        assert m in queue;
      }
      if x in QueueIds(queue) - {queue[i].id} {
        var j :| 0 <= j < |queue| && queue[j].id == x;
        assert queue[j] == if j < i then q[j] else q[j - 1];
      }
    }
  }

  /** A ready node waits in the queue. */
  lemma Enqueue(job: Job, s: State, ph: Phase, id: Id, priority: int)
    requires job.cfg.prioritized && Inv(job, s, ph) && ReadyToLeave(job, s, id)
    ensures Inv(job, s.(queue := s.queue + [Item(id, priority)]), ph.(todo := ph.todo - {id}))
  {
    hide Shaped, Degrees, Counted, Owed, Started, Truthful, Fed, Served;
    QueueAppend(s.queue, Item(id, priority));
  }

  /** A waiting node is taken from the queue to be handled. */
  lemma Take(job: Job, s: State, ph: Phase, i: nat)
    requires Inv(job, s, ph) && i < |s.queue|
    ensures var s' := s.(queue := s.queue[..i] + s.queue[i + 1..]);
            Inv(job, s', ph.(todo := ph.todo + {s.queue[i].id})) && ReadyToLeave(job, s', s.queue[i].id)
  {
    hide Shaped, Degrees, Counted, Owed, Started, Truthful, Fed, Served;
    QueueRemove(s.queue, i);
  }

  // ---- a completion is received and handled

  ghost function Popping(job: Job, s: State): State
    requires s.doneCh != []
  {
    s.(doneCh := s.doneCh[1..], pending := s.pending - 1,
       activePQ := if job.cfg.prioritized then s.activePQ - 1 else s.activePQ)
  }

  lemma ChanHead(doneCh: seq<Completion>)
    requires doneCh != [] && forall i, j :: 0 <= i < j < |doneCh| ==> doneCh[i].id != doneCh[j].id
    ensures ChanIds(doneCh) == {doneCh[0].id} + ChanIds(doneCh[1..]) && doneCh[0].id !in ChanIds(doneCh[1..])
  {
    assert doneCh == [doneCh[0]] + doneCh[1..];
    assert doneCh[0] in doneCh;
    forall c | c in doneCh[1..] ensures c.id != doneCh[0].id && c in doneCh {
      var k :| 0 <= k < |doneCh[1..]| && doneCh[1..][k] == c;
      assert doneCh[k + 1] == c;
    }
    forall x ensures x in ChanIds(doneCh) <==> x in {doneCh[0].id} + ChanIds(doneCh[1..]) {
      if x in ChanIds(doneCh) {
        var c :| c in doneCh && c.id == x;
      }
      if x in ChanIds(doneCh[1..]) {
        var c :| c in doneCh[1..] && c.id == x;
        assert c in doneCh;
      }
    }
  }

  lemma OwedPop(status: map<Id, Status>, inFlight: set<Id>, doneCh: seq<Completion>)
    requires Owed(status, inFlight, doneCh, {}) && doneCh != []
    ensures doneCh[0].id in status && status[doneCh[0].id] == Running
    ensures Owed(status, inFlight, doneCh[1..], {doneCh[0].id})
  {
    ChanHead(doneCh);
    assert doneCh[0].id in With(status, Running) - {};
  }

  lemma CountedPop(cfg: Config, status: map<Id, Status>, pending: int, activePQ: int, id: Id)
    requires Counted(cfg, status, pending, activePQ, {}, 0) && id in status && status[id] == Running
    ensures Counted(cfg, status, pending - 1, if cfg.prioritized then activePQ - 1 else activePQ, {id}, 0)
  {
    assert id in Active(status) && id in With(status, Running);
    assert Active(status) - {} == Active(status) && With(status, Running) - {} == With(status, Running);
    hide Active, With;
    OneLess(Active(status), id);
    OneLess(With(status, Running), id);
  }

  /** The loop takes the oldest completion from the channel. */
  lemma Receive(job: Job, s: State)
    requires Inv(job, s, IDLE) && s.doneCh != []
    ensures Inv(job, Popping(job, s), IDLE.(popped := {s.doneCh[0].id}))
    ensures s.doneCh[0].id in s.status && s.status[s.doneCh[0].id] == Running
    ensures !s.cancelled ==> Reports(job, s.doneCh[0], s.results) && MayRun(job, s.doneCh[0].id, s.results)
  {
    hide Degrees, Counted, Owed, Queued, Started, MayRun, Carries, Reports, Right, Ids, Fed, Served;
    var id := s.doneCh[0].id;
    OwedPop(s.status, s.inFlight.Keys, s.doneCh);
    CountedPop(job.cfg, s.status, s.pending, s.activePQ, id);
    if !s.cancelled {
      assert id in With(s.status, Running);
      assert s.doneCh[0] in s.doneCh;
      forall c | c in s.doneCh[1..] ensures c in s.doneCh {}
    }
  }

  lemma ShapedFail(job: Job, status: map<Id, Status>, results: map<Id, Payload>, id: Id)
    requires Shaped(job, status, results, {id})
    ensures id in status && status[id] in {Running, Failed}
    ensures Shaped(job, status[id := Failed], results, {id})
    ensures Terminal(status[id := Failed]) == Terminal(status) && id !in Terminal(status)
  {
    assert id in {id};
    StatusSets(status, id, Failed);
  }

  lemma OwedFail(status: map<Id, Status>, inFlight: set<Id>, doneCh: seq<Completion>, id: Id)
    requires Owed(status, inFlight, doneCh, {id}) && id in status
    ensures Owed(status[id := Failed], inFlight, doneCh, {id})
  {
    StatusSets(status, id, Failed);
  }

  lemma TruthfulFail(job: Job, s: State, id: Id)
    requires Truthful(job, s.status, s.results, s.inFlight, s.doneCh) && id in s.status
    requires Terminal(s.status[id := Failed]) == Terminal(s.status) && id !in Terminal(s.status)
    ensures Truthful(job, s.status[id := Failed], s.results, s.inFlight, s.doneCh)
  {
    hide Right, MayRun, Reports, Carries, Terminal;
    StatusSets(s.status, id, Failed);
    RightStays(job, s.status, s.results, id, Failed);
  }

  /** The failed node is marked before its failure is dealt with. */
  lemma MarkFailed(job: Job, s: State, id: Id)
    requires Inv(job, s, IDLE.(popped := {id}))
    ensures id in s.status
    ensures Inv(job, s.(status := s.status[id := Failed]), IDLE.(popped := {id}))
  {
    hide Shaped, Degrees, Counted, Owed, Queued, Started, Truthful, Fed, Served;
    hide With, Terminal, Active, QueueIds, ChanIds, Ids;
    ShapedFail(job, s.status, s.results, id);
    CountedOther(job.cfg, s.status, s.pending, s.activePQ, id, Failed);
    OwedFail(s.status, s.inFlight.Keys, s.doneCh, id);
    QueuedOther(job.cfg, s.status, s.inDegree, s.queue, {}, id, Failed);
    StartedOther(job, s.status, s.started, id, Failed);
    FedStays(job, s.status, s.status[id := Failed], s.results, s.started, s.inFlight, s.launched);
    if !s.cancelled {
      TruthfulFail(job, s, id);
    }
  }

  lemma QueuedOther(cfg: Config, status: map<Id, Status>, inDegree: map<Id, int>, queue: seq<Item>, todo: set<Id>, id: Id, st: Status)
    requires Queued(cfg, status, inDegree, queue, todo) && id in status && status[id] != Pending && st != Pending
    ensures Queued(cfg, status[id := st], inDegree, queue, todo)
  {
  }

  lemma StartedOther(job: Job, status: map<Id, Status>, started: seq<Id>, id: Id, st: Status)
    requires Started(job, status, started) && id in status && status[id] in {Running, Failed} && st in {Failed, Done, Skipped}
    ensures Started(job, status[id := st], started)
  {
    var status' := status[id := st];
    StatusSets(status, id, st);
    forall x | x in status' && status'[x] != Pending && x !in job.restored ensures DepsTerminal(job.g, status', x) {
      assert DepsTerminal(job.g, status, x);
    }
  }

  lemma OtherSets(status: map<Id, Status>, id: Id, st: Status)
    requires id in status && status[id] in {Running, Failed} && st in {Failed, Done, Skipped}
    ensures Active(status[id := st]) - {id} == Active(status) - {id} == Active(status[id := st]) - {}
    ensures With(status[id := st], Running) - {id} == With(status, Running) - {id} == With(status[id := st], Running) - {}
  {
    WithSet(status, id, st, Pending);
    WithSet(status, id, st, Running);
    assert id !in With(status, Pending);
  }

  /** Once the handled node has left Running it no longer needs to be set aside. */
  lemma CountedOther(cfg: Config, status: map<Id, Status>, pending: int, activePQ: int, id: Id, st: Status)
    requires Counted(cfg, status, pending, activePQ, {id}, 0)
    requires id in status && status[id] in {Running, Failed} && st in {Failed, Done, Skipped}
    ensures Counted(cfg, status[id := st], pending, activePQ, {id}, 0)
    ensures Counted(cfg, status[id := st], pending, activePQ, {}, 0)
  {
    hide With, Active;
    OtherSets(status, id, st);
  }

  lemma OwedSettle(status: map<Id, Status>, inFlight: set<Id>, doneCh: seq<Completion>, id: Id, st: Status)
    requires Owed(status, inFlight, doneCh, {id}) && id in status && st in {Done, Skipped}
    ensures Owed(status[id := st], inFlight, doneCh, {})
  {
    StatusSets(status, id, st);
  }

  lemma RightStays(job: Job, status: map<Id, Status>, results: map<Id, Payload>, id: Id, st: Status)
    requires id in status && id !in Terminal(status) && forall x :: x in Terminal(status) ==> Right(job, x, status, results)
    ensures forall x :: x in Terminal(status) ==> Right(job, x, status[id := st], results)
  {
    forall x | x in Terminal(status) ensures Right(job, x, status[id := st], results) {
      assert Right(job, x, status, results);
    }
  }

  /** A new result changes nothing upstream of a node all of whose dependencies had ended before. */
  lemma UpstreamStays(g: seq<Node>, status: map<Id, Status>, results: map<Id, Payload>, x: Id, id: Id, resp: Payload)
    requires DepsTerminal(g, status, x) && id !in Terminal(status)
    ensures Upstream(g, x, results[id := resp]) == Upstream(g, x, results)
  {
    SameUpstream(g, x, results[id := resp], results);
  }

  lemma RightSettled(job: Job, status: map<Id, Status>, results: map<Id, Payload>, x: Id, id: Id, resp: Payload)
    requires Right(job, x, status, results) && x in Terminal(status) && id in status && id !in Terminal(status)
    requires x in job.restored || DepsTerminal(job.g, status, x)
    ensures Right(job, x, status[id := Done], results[id := resp])
  {
    if x !in job.restored {
      UpstreamStays(job.g, status, results, x, id, resp);
    }
  }

  lemma TruthfulSettle(job: Job, s: State, id: Id, resp: Payload)
    requires Truthful(job, s.status, s.results, s.inFlight, s.doneCh) && Started(job, s.status, s.started)
    requires Owed(s.status, s.inFlight.Keys, s.doneCh, {id})
    requires id in Ids(job.g) && id in s.status && s.status[id] in {Running, Failed} && id !in job.restored
    requires s.status.Keys == Ids(job.g)
    requires DepsTerminal(job.g, s.status, id) && JobVerdict(job, id, s.results) == Settles(resp)
    ensures Truthful(job, s.status[id := Done], s.results[id := resp], s.inFlight, s.doneCh)
  {
    hide NodeOutcome, NodeInput, ConditionHolds, JobVerdict, SettledAt, Right;
    var status', results' := s.status[id := Done], s.results[id := resp];
    StatusSets(s.status, id, Done);
    assert Terminal(status') == Terminal(s.status) + {id};
    forall x | x in Terminal(status') ensures Right(job, x, status', results') {
      if x == id {
        SettlesRight(job, s.status, s.results, id, resp);
      } else {
        RightSettled(job, s.status, s.results, x, id, resp);
      }
    }
    forall x | x in With(s.status, Running) ensures MayRun(job, x, results') {
      UpstreamStays(job.g, s.status, s.results, x, id, resp);
    }
    forall c | c in s.doneCh ensures Reports(job, c, results') {
      assert c.id in ChanIds(s.doneCh);
      assert c.id in With(s.status, Running);
      UpstreamStays(job.g, s.status, s.results, c.id, id, resp);
    }
    forall x | x in s.inFlight ensures Carries(job, x, s.inFlight[x], results') {
      assert x in With(s.status, Running);
      UpstreamStays(job.g, s.status, s.results, x, id, resp);
    }
  }

  lemma SettlesRight(job: Job, status: map<Id, Status>, results: map<Id, Payload>, id: Id, resp: Payload)
    requires id in Ids(job.g) && id in status && id !in job.restored && DepsTerminal(job.g, status, id) && id !in Terminal(status)
    requires JobVerdict(job, id, results) == Settles(resp)
    ensures Right(job, id, status[id := Done], results[id := resp])
  {
    UpstreamStays(job.g, status, results, id, id, resp);
  }

  lemma PoppedFacts(job: Job, s: State, id: Id)
    requires ValidJob(job) && Inv(job, s, IDLE.(popped := {id}))
    ensures UniqueIds(job.g) && id in Ids(job.g) && id in s.status && s.status[id] in {Running, Failed}
    ensures s.status.Keys == Ids(job.g)
    ensures id !in job.restored && DepsTerminal(job.g, s.status, id) && id !in Terminal(s.status) && id !in s.results
  {
    hide Degrees, Counted, Owed, Queued, Truthful, UniqueIds, KnownDeps, Acyclic, DepsTerminal, Fed, Served;
    assert id in {id};
  }

  lemma ShapedSettle(job: Job, status: map<Id, Status>, results: map<Id, Payload>, id: Id, resp: Payload)
    requires Shaped(job, status, results, {id})
    ensures Shaped(job, status[id := Done], results[id := resp], {})
    ensures Shaped(job, status[id := Skipped], results, {})
  {
    assert id in {id};
    StatusSets(status, id, Done);
    StatusSets(status, id, Skipped);
  }

  /** The handled node ends with a result. */
  lemma Settle(job: Job, s: State, id: Id, resp: Payload)
    requires ValidJob(job) && Inv(job, s, IDLE.(popped := {id}))
    requires !s.cancelled ==> id in Ids(job.g) && JobVerdict(job, id, s.results) == Settles(resp)
    ensures Inv(job, s.(status := s.status[id := Done], results := s.results[id := resp]),
                IDLE.(debt := multiset(Topo.Downstream(job.g, id))))
  {
    hide ValidJob, UniqueIds, DepsTerminal, Ids, JobVerdict;
    hide Shaped, Degrees, Counted, Owed, Queued, Started, Truthful, Fed, Served;
    hide With, Terminal, Active, QueueIds, ChanIds, Topo.Downstream;
    PoppedFacts(job, s, id);
    ShapedSettle(job, s.status, s.results, id, resp);
    TerminalGrows(s.status, id, Done);
    DegreesEnd(job.g, s.inDegree, Terminal(s.status), multiset{}, id);
    CountedOther(job.cfg, s.status, s.pending, s.activePQ, id, Done);
    OwedSettle(s.status, s.inFlight.Keys, s.doneCh, id, Done);
    QueuedOther(job.cfg, s.status, s.inDegree, s.queue, {}, id, Done);
    StartedOther(job, s.status, s.started, id, Done);
    FedSettle(job, s, id, resp);
    FedStays(job, s.status, s.status[id := Done], s.results[id := resp], s.started, s.inFlight, s.launched);
    if !s.cancelled {
      TruthfulSettle(job, s, id, resp);
    }
    assert multiset{} + multiset(Topo.Downstream(job.g, id)) == multiset(Topo.Downstream(job.g, id));
  }

  lemma TruthfulSkip(job: Job, s: State, id: Id)
    requires Truthful(job, s.status, s.results, s.inFlight, s.doneCh)
    requires id in Ids(job.g) && id in s.status && s.status[id] in {Running, Failed} && id !in job.restored && id !in s.results
    requires JobVerdict(job, id, s.results) == IsSkipped
    ensures Truthful(job, s.status[id := Skipped], s.results, s.inFlight, s.doneCh)
  {
    hide MayRun, Reports, Carries, With;
    StatusSets(s.status, id, Skipped);
    assert id !in Terminal(s.status) by { NotTerminal(s.status, id); }
    RightStays(job, s.status, s.results, id, Skipped);
    hide Right;
    RightSkipped(job, s.status, s.results, id);
  }

  lemma NotTerminal(status: map<Id, Status>, id: Id)
    requires id in status && status[id] in {Running, Failed}
    ensures id !in Terminal(status)
  {
  }

  lemma RightSkipped(job: Job, status: map<Id, Status>, results: map<Id, Payload>, id: Id)
    requires id in Ids(job.g) && id in status && id !in job.restored && id !in results && JobVerdict(job, id, results) == IsSkipped
    ensures Right(job, id, status[id := Skipped], results)
  {
  }

  /** The handled node has failed, and its failure is tolerated. */
  lemma SkipFailed(job: Job, s: State, id: Id)
    requires ValidJob(job) && Inv(job, s, IDLE.(popped := {id}))
    requires !s.cancelled ==> id in Ids(job.g) && JobVerdict(job, id, s.results) == IsSkipped
    ensures Inv(job, s.(status := s.status[id := Skipped]), IDLE.(debt := multiset(Topo.Downstream(job.g, id))))
  {
    hide ValidJob, UniqueIds, DepsTerminal, Ids, JobVerdict;
    hide Shaped, Degrees, Counted, Owed, Queued, Started, Truthful, Fed, Served;
    hide With, Terminal, Active, QueueIds, ChanIds, Topo.Downstream;
    PoppedFacts(job, s, id);
    ShapedSettle(job, s.status, s.results, id, job.request);
    TerminalGrows(s.status, id, Skipped);
    DegreesEnd(job.g, s.inDegree, Terminal(s.status), multiset{}, id);
    CountedOther(job.cfg, s.status, s.pending, s.activePQ, id, Skipped);
    OwedSettle(s.status, s.inFlight.Keys, s.doneCh, id, Skipped);
    QueuedOther(job.cfg, s.status, s.inDegree, s.queue, {}, id, Skipped);
    StartedOther(job, s.status, s.started, id, Skipped);
    FedStays(job, s.status, s.status[id := Skipped], s.results, s.started, s.inFlight, s.launched);
    if !s.cancelled {
      TruthfulSkip(job, s, id);
    }
    assert multiset{} + multiset(Topo.Downstream(job.g, id)) == multiset(Topo.Downstream(job.g, id));
  }

  // ---- what the node goroutines do

  /** A goroutine sends its node's completion. */
  lemma Finish(job: Job, s: State, ph: Phase, x: Id, o: Outcome)
    requires Inv(job, s, ph) && x in s.inFlight
    requires !s.cancelled ==> o == job.cfg.run(x, s.inFlight[x])
    ensures Inv(job, s.(inFlight := s.inFlight - {x}, doneCh := s.doneCh + [Completion(x, o)]), ph)
  {
    hide Shaped, Degrees, Counted, Queued, Started, MayRun, Right, Served, DepsTerminal;
    var inFlight', c := s.inFlight - {x}, Completion(x, o);
    ChanAppend(s.doneCh, c);
    assert x !in ChanIds(s.doneCh);
    assert inFlight'.Keys == s.inFlight.Keys - {x};
    forall i | 0 <= i < |s.doneCh| ensures s.doneCh[i].id != x {
      assert s.doneCh[i] in s.doneCh;
    }
    if !s.cancelled {
      assert Carries(job, x, s.inFlight[x], s.results);
    }
  }

  /** The completion channel, sized to the number of nodes, always has room for one more sender. */
  lemma RoomToSend(job: Job, s: State, ph: Phase, x: Id)
    requires ValidJob(job) && Inv(job, s, ph)
    requires x in s.inFlight || (x in s.status && s.status[x] == Pending)
    ensures |s.doneCh| < |job.g|
  {
    hide Degrees, Counted, Queued, Started, Truthful, Acyclic, KnownDeps, Fed, Served;
    var ids := seq(|s.doneCh|, i requires 0 <= i < |s.doneCh| => s.doneCh[i].id);
    forall i | 0 <= i < |ids| ensures ids[i] in Ids(job.g) - {x} {
      assert s.doneCh[i] in s.doneCh;
      assert ids[i] in ChanIds(s.doneCh);
      assert ids[i] in With(s.status, Running);
    }
    NoDupFits(ids, Ids(job.g) - {x});
    assert x in Ids(job.g) by {
      if x in s.inFlight { assert x in With(s.status, Running); }
    }
    OneLess(Ids(job.g), x);
    IdCount(job.g);
  }

  lemma ChanSize(doneCh: seq<Completion>)
    requires forall i, j :: 0 <= i < j < |doneCh| ==> doneCh[i].id != doneCh[j].id
    ensures |ChanIds(doneCh)| == |doneCh|
  {
    var ids := seq(|doneCh|, i requires 0 <= i < |doneCh| => doneCh[i].id);
    NoDupSize(ids);
    forall x ensures x in Elems(ids) <==> x in ChanIds(doneCh) {
      if x in Elems(ids) {
        var i :| 0 <= i < |ids| && ids[i] == x;
        assert doneCh[i] in doneCh;
      }
      if x in ChanIds(doneCh) {
        var c :| c in doneCh && c.id == x;
        var i :| 0 <= i < |doneCh| && doneCh[i] == c;
        assert ids[i] == x;
      }
    }
    assert Elems(ids) == ChanIds(doneCh);
  }

  /** As many completions are owed as nodes are Running. */
  lemma OwedCount(status: map<Id, Status>, inFlight: set<Id>, doneCh: seq<Completion>, popped: set<Id>)
    requires Owed(status, inFlight, doneCh, popped)
    ensures |With(status, Running) - popped| == |inFlight| + |doneCh|
  {
    ChanSize(doneCh);
    hide ChanIds;
    assert |inFlight + ChanIds(doneCh)| == |inFlight| + |ChanIds(doneCh)|;
  }

  // ---- progress

  /** The queue has been drained as far as the concurrency limit allows. */
  ghost predicate Drained(cfg: Config, queue: seq<Item>, activePQ: int) {
    queue == [] || (cfg.maxConcurrency > 0 && activePQ >= cfg.maxConcurrency)
  }

  /** While nodes are pending some completion is owed: the loop never waits in vain. */
  lemma NeverStuck(job: Job, s: State)
    requires ValidJob(job) && Inv(job, s, IDLE) && Drained(job.cfg, s.queue, s.activePQ) && s.pending > 0
    ensures s.doneCh != [] || |s.inFlight| > 0
  {
    hide Truthful, Acyclic, KnownDeps, UniqueIds, Edge, HasPred, Remaining, Fed, Served;
    OwedCount(s.status, s.inFlight.Keys, s.doneCh, {});
    assert |s.inFlight| == |s.inFlight.Keys|;
    if With(s.status, Running) - {} == {} {
      assert s.queue == [];
      var waiting := With(s.status, Pending);
      assert waiting == Active(s.status) - {};
      AcyclicHasSource(job.g, waiting);
      var x :| x in waiting && !HasPred(job.g, waiting, x);
      SourceIsReady(job, s, x);
    }
  }

  /** A pending node with nothing pending below it has in-degree zero. */
  lemma SourceIsReady(job: Job, s: State, x: Id)
    requires ValidJob(job) && Inv(job, s, IDLE) && With(s.status, Running) == {}
    requires x in With(s.status, Pending) && !HasPred(job.g, With(s.status, Pending), x)
    ensures s.inDegree[x] == 0
  {
    hide Truthful, Acyclic, Counted, Owed, Queued, Fed, Served;
    forall d | d in DepsOf(job.g, x) ensures d in Terminal(s.status) {
      DepKnown(job.g, x, d);
      assert d !in With(s.status, Pending);
      assert d !in With(s.status, Running);
    }
    RemainingZero(DepsOf(job.g, x), Terminal(s.status));
  }

  lemma NothingActive(cfg: Config, s: State)
    requires Counted(cfg, s.status, 0, s.activePQ, {}, 0) && Owed(s.status, s.inFlight.Keys, s.doneCh, {})
    ensures With(s.status, Pending) == {} && With(s.status, Running) == {}
    ensures s.inFlight == map[] && s.doneCh == []
  {
    assert Active(s.status) - {} == {};
    assert With(s.status, Pending) <= Active(s.status) - {} && With(s.status, Running) <= Active(s.status) - {};
    OwedCount(s.status, s.inFlight.Keys, s.doneCh, {});
    assert With(s.status, Running) - {} == {};
    assert |s.inFlight.Keys| == 0 && s.inFlight.Keys == {};
  }

  lemma EndedStatus(job: Job, status: map<Id, Status>, results: map<Id, Payload>, x: Id)
    requires Shaped(job, status, results, {}) && With(status, Pending) == {} && With(status, Running) == {} && x in status
    ensures status[x] in {Done, Skipped} && x in Terminal(status)
  {
    assert x !in With(status, Pending) && x !in With(status, Running);
  }

  /** When nothing is pending every node has ended, and unless cancelled the result is the right one. */
  lemma AllEnded(job: Job, s: State)
    requires Inv(job, s, IDLE) && s.pending == 0
    ensures forall x :: x in s.status ==> s.status[x] in {Done, Skipped}
    ensures s.inFlight == map[] && s.doneCh == []
    ensures !s.cancelled ==> IsOutcome(job, s.status, s.results)
  {
    hide Degrees, Counted, Owed, Queued, Started, Right, MayRun, Reports, Carries, SettledAt, Terminal, Fed, Served;
    NothingActive(job.cfg, s);
    forall x | x in s.status ensures s.status[x] in {Done, Skipped} && x in Terminal(s.status) {
      EndedStatus(job, s.status, s.results, x);
    }
    if !s.cancelled {
      forall x | x in s.status ensures SettledAt(job, x, s.status, s.results) {
        assert Right(job, x, s.status, s.results);
        RightMeans(job, x, s.status, s.results);
      }
    }
  }

  lemma RightMeans(job: Job, x: Id, status: map<Id, Status>, results: map<Id, Payload>)
    requires Right(job, x, status, results)
    ensures x in Ids(job.g) && x in status && SettledAt(job, x, status, results)
  {
  }

  // ---- the phase of a step can be relaxed

  lemma TodoMayGrow(job: Job, s: State, ph: Phase, todo: set<Id>)
    requires Inv(job, s, ph) && ph.todo <= todo
    ensures Inv(job, s, ph.(todo := todo))
  {
    hide Shaped, Degrees, Counted, Owed, Started, Truthful, Fed, Served;
  }

  lemma TodoMayShrink(job: Job, s: State, ph: Phase, id: Id)
    requires Inv(job, s, ph) && id in s.status && (s.status[id] != Pending || (id in s.inDegree && s.inDegree[id] != 0))
    ensures Inv(job, s, ph.(todo := ph.todo - {id}))
  {
    hide Shaped, Degrees, Counted, Owed, Started, Truthful, Fed, Served;
  }

  /** Without priority scheduling nothing is counted as active. */
  lemma Uncounted(job: Job, s: State, ph: Phase, n: nat)
    requires Inv(job, s, ph) && !job.cfg.prioritized
    ensures Inv(job, s, ph.(uncounted := n))
  {
    hide Shaped, Degrees, Owed, Queued, Started, Truthful, Fed, Served;
  }

  lemma CountStarted(job: Job, s: State, n: nat)
    requires Inv(job, s, IDLE.(uncounted := n))
    ensures Inv(job, s.(activePQ := s.activePQ + n), IDLE)
  {
    hide Shaped, Degrees, Owed, Queued, Started, Truthful, Fed, Served;
  }

  lemma RoomBelowLimit(job: Job, s: State, ph: Phase)
    requires Inv(job, s, ph) && ph.uncounted == 0
    requires !(job.cfg.maxConcurrency > 0 && s.activePQ >= job.cfg.maxConcurrency)
    ensures HasRoom(job.cfg, s.status, ph.popped)
  {
    hide Shaped, Degrees, Owed, Queued, Started, Truthful, Fed, Served;
  }

  // ---- a failure that stops the run

  ghost predicate AgreesAt(x: Id, s1: map<Id, Status>, r1: map<Id, Payload>, s2: map<Id, Status>, r2: map<Id, Payload>) {
    x in s1 && x in s2 && Agree(x, s1, r1, s2, r2)
  }

  /** Whatever has ended rightly so far agrees with any complete result. */
  lemma EndedAgree(job: Job, s: State, ph: Phase, s2: map<Id, Status>, r2: map<Id, Payload>, x: Id)
    requires ValidJob(job) && Inv(job, s, ph) && !s.cancelled && IsOutcome(job, s2, r2)
    requires x in Terminal(s.status)
    ensures AgreesAt(x, s.status, s.results, s2, r2)
  {
    hide Acyclic, KnownDeps, UniqueIds, Edge, HasPred, SettledAt, Agree, Degrees, Counted, Owed, Queued, Right, MayRun, Reports, Carries, Fed, Served;
    var bad := set y | y in Terminal(s.status) && !AgreesAt(y, s.status, s.results, s2, r2);
    if bad != {} {
      AcyclicHasSource(job.g, bad);
      var y :| y in bad && !HasPred(job.g, bad, y);
      EndedAgreeStep(job, s, ph, s2, r2, bad, y);
    }
    assert x !in bad;
  }

  lemma EndedAgreeStep(job: Job, s: State, ph: Phase, s2: map<Id, Status>, r2: map<Id, Payload>, bad: set<Id>, y: Id)
    requires ValidJob(job) && Inv(job, s, ph) && !s.cancelled && IsOutcome(job, s2, r2)
    requires bad == set z | z in Terminal(s.status) && !AgreesAt(z, s.status, s.results, s2, r2)
    requires y in Terminal(s.status) && !HasPred(job.g, bad, y)
    ensures AgreesAt(y, s.status, s.results, s2, r2)
  {
    hide Acyclic, KnownDeps, UniqueIds, Edge, JobVerdict, Degrees, Counted, Owed, Queued, MayRun, Reports, Carries, Fed, Served;
    assert Right(job, y, s.status, s.results);
    assert SettledAt(job, y, s2, r2);
    if y !in job.restored {
      forall d | d in DepsOf(job.g, y) ensures (d in s.results <==> d in r2) && (d in s.results ==> s.results[d] == r2[d]) {
        DepKnown(job.g, y, d);
        assert d in Terminal(s.status);
        NotBadBelow(job.g, bad, d, y);
      }
      SameVerdict(job, y, s.results, r2);
    }
  }

  lemma NotBadBelow(g: seq<Node>, bad: set<Id>, d: Id, y: Id)
    requires Edge(g, d, y) && !HasPred(g, bad, y)
    ensures d !in bad
  {
  }

  lemma SameVerdict(job: Job, x: Id, r1: map<Id, Payload>, r2: map<Id, Payload>)
    requires x in Ids(job.g)
    requires forall d :: d in DepsOf(job.g, x) ==> (d in r1 <==> d in r2) && (d in r1 ==> r1[d] == r2[d])
    ensures JobVerdict(job, x, r1) == JobVerdict(job, x, r2)
  {
    SameUpstream(job.g, x, r1, r2);
  }

  /** If a node's failure stops the run then no schedule could have completed it. */
  lemma StopIsFinal(job: Job, s: State, id: Id)
    requires ValidJob(job) && Inv(job, s, IDLE.(popped := {id})) && !s.cancelled
    requires id in Ids(job.g) && JobVerdict(job, id, s.results) == StopsRun
    ensures forall s2, r2 :: !IsOutcome(job, s2, r2)
  {
    hide ValidJob, Inv, JobVerdict, SettledAt;
    PoppedFacts(job, s, id);
    forall s2, r2 ensures !IsOutcome(job, s2, r2) {
      if IsOutcome(job, s2, r2) {
        forall d | d in DepsOf(job.g, id) ensures (d in s.results <==> d in r2) && (d in s.results ==> s.results[d] == r2[d]) {
          EndedAgree(job, s, IDLE.(popped := {id}), s2, r2, d);
        }
        SameVerdict(job, id, s.results, r2);
        NotStopped(job, id, s2, r2);
      }
    }
  }

  lemma NotStopped(job: Job, id: Id, s2: map<Id, Status>, r2: map<Id, Payload>)
    requires IsOutcome(job, s2, r2) && id in Ids(job.g) && id !in job.restored
    ensures JobVerdict(job, id, r2) != StopsRun
  {
    assert SettledAt(job, id, s2, r2);
  }
}
