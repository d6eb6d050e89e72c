/** The state machine of a persisted interrupt: decisions come in, one resumer at a time holds the lease, one completes. */
module Interrupt {
  import opened Graph
  import opened Wrappers

  datatype Status = Pending | Ready | Resuming | Completed

  /** What a human decided for one pending tool call; the time is stamped by the store. */
  datatype Decision = Decision(callId: string, content: string, isError: bool, execute: bool, decidedAt: int)

  /** What is fixed when a record is created. */
  datatype Frozen = Frozen(version: int, id: string, session: string, agent: string, protocol: string,
                           calls: seq<string>, fingerprint: string, supersedes: string, createdAt: int)

  datatype Rec = Rec(frozen: Frozen, pending: seq<string>, decisions: map<string, Decision>, status: Status,
                     revision: int, owner: string, expires: int, updatedAt: int)

  datatype Error = UnknownToolCall | DecisionConflict | AlreadyCompleted | NotReady | LeaseHeld | LeaseNotOwned
                 | InvalidArgument | NotFound | UnknownVersion

  const NO_OWNER := ""
  const NO_TIME := 0
  const MAX_ID := 128

  // ---- decisions

  predicate SameAnswer(a: Decision, b: Decision) {
    a.content == b.content && a.isError == b.isError && a.execute == b.execute
  }

  predicate AllDecided(pending: seq<string>, decisions: map<string, Decision>) {
    forall id :: id in pending ==> id in decisions
  }

  datatype Taken = Taken(decisions: map<string, Decision>, committed: seq<string>, err: Option<Error>)

  /** Decisions are taken one by one; the first that is unknown or contradicts stops the rest. */
  function Take(pending: seq<string>, decisions: map<string, Decision>, ds: seq<Decision>, now: int): Taken
    decreases |ds|
  {
    if ds == [] then Taken(decisions, [], None)
    else
      var d := ds[0];
      if d.callId !in pending then Taken(decisions, [], Some(UnknownToolCall))
      else if d.callId in decisions then
        if SameAnswer(decisions[d.callId], d) then Take(pending, decisions, ds[1..], now)
        else Taken(decisions, [], Some(DecisionConflict))
      else
        var rest := Take(pending, decisions[d.callId := d.(decidedAt := now)], ds[1..], now);
        rest.(committed := [d.callId] + rest.committed)
  }

  function Audited(r: Rec, decisions: map<string, Decision>, now: int): Rec {
    r.(decisions := decisions, updatedAt := now, revision := r.revision + 1,
       status := if r.status == Pending && AllDecided(r.pending, decisions) then Ready else r.status)
  }

  datatype Reply = Reply(committed: seq<string>, err: Option<Error>)

  function Submit(r: Rec, ds: seq<Decision>, now: int): (Rec, Reply) {
    if r.status == Completed then (r, Reply([], Some(AlreadyCompleted)))
    else
      var t := Take(r.pending, r.decisions, ds, now);
      (if t.committed == [] then r else Audited(r, t.decisions, now), Reply(t.committed, t.err))
  }

  // ---- the lease

  function Acquire(r: Rec, owner: string, ttl: int, now: int): (Rec, Reply) {
    if r.status == Completed then (r, Reply([], Some(AlreadyCompleted)))
    else if r.status == Pending then (r, Reply([], Some(NotReady)))
    else if r.status == Resuming && r.expires > now then (r, Reply([], Some(LeaseHeld)))
    else (r.(status := Resuming, owner := owner, expires := now + ttl, updatedAt := now, revision := r.revision + 1), Reply([], None))
  }

  function Give(r: Rec, owner: string, now: int, to: Status): (Rec, Reply) {
    if r.status != Resuming || r.owner != owner then (r, Reply([], Some(LeaseNotOwned)))
    else (r.(status := to, owner := NO_OWNER, expires := NO_TIME, updatedAt := now, revision := r.revision + 1), Reply([], None))
  }

  datatype Op =
    | SubmitOp(ds: seq<Decision>, now: int)
    | AcquireOp(owner: string, ttl: int, now: int)
    | ReleaseOp(owner: string, now: int)
    | CompleteOp(owner: string, now: int)

  function Step(r: Rec, op: Op): (Rec, Reply) {
    match op
    case SubmitOp(ds, now) => Submit(r, ds, now)
    case AcquireOp(owner, ttl, now) => Acquire(r, owner, ttl, now)
    case ReleaseOp(owner, now) => Give(r, owner, now, Ready)
    case CompleteOp(owner, now) => Give(r, owner, now, Completed)
  }

  /** The record after a history of calls. */
  function After(r: Rec, ops: seq<Op>): Rec {
    if ops == [] then r else Step(After(r, ops[..|ops| - 1]), ops[|ops| - 1]).0
  }

  /** What the i-th call answered. */
  function Answer(r: Rec, ops: seq<Op>, i: nat): Reply
    requires i < |ops|
  {
    Step(After(r, ops[..i]), ops[i]).1
  }

  /** A record as both its creators make it: something is pending and nothing is decided. */
  ghost predicate Born(r: Rec) {
    r.status == Pending && r.pending != [] && r.decisions == map[]
  }

  // ---- what one submission does

  /** How many decisions of a submission were taken before the first rejected one. */
  function TakenCount(pending: seq<string>, decisions: map<string, Decision>, ds: seq<Decision>, now: int): (n: nat)
    ensures n <= |ds|
    decreases |ds|
  {
    if ds == [] || ds[0].callId !in pending then 0
    else if ds[0].callId in decisions then
      if SameAnswer(decisions[ds[0].callId], ds[0]) then 1 + TakenCount(pending, decisions, ds[1..], now) else 0
    else 1 + TakenCount(pending, decisions[ds[0].callId := ds[0].(decidedAt := now)], ds[1..], now)
  }

  /** What stood stays; the list returned names exactly the new ids, each once, stamped with the store's time. */
  lemma {:induction false} TakeKeeps(pending: seq<string>, decisions: map<string, Decision>, ds: seq<Decision>, now: int)
    ensures var t := Take(pending, decisions, ds, now);
            && (forall id :: id in decisions ==> id in t.decisions && t.decisions[id] == decisions[id])
            && (forall id :: id in t.committed <==> id in t.decisions && id !in decisions)
            && (forall id :: id in t.committed ==> id in pending && t.decisions[id].decidedAt == now && t.decisions[id].callId == id)
            && NoDup(t.committed)
    decreases |ds|
  {
    if ds != [] && ds[0].callId in pending {
      var d := ds[0];
      if d.callId !in decisions {
        TakeKeeps(pending, decisions[d.callId := d.(decidedAt := now)], ds[1..], now);
      } else {
        TakeKeeps(pending, decisions, ds[1..], now);
      }
    }
  }

  /** What stands is what was submitted: the same content, and the same two flags. */
  predicate StandsAs(standing: Decision, d: Decision) {
    && standing.content == d.content
    && (standing.isError <==> d.isError)
    && (standing.execute <==> d.execute)
  }

  /** The decisions taken are a prefix: all of it now stands as submitted, and nothing else was added. */
  lemma {:induction false} TakePrefix(pending: seq<string>, decisions: map<string, Decision>, ds: seq<Decision>, now: int)
    ensures var t := Take(pending, decisions, ds, now); var n := TakenCount(pending, decisions, ds, now);
            && (forall i :: 0 <= i < n ==> ds[i].callId in t.decisions && StandsAs(t.decisions[ds[i].callId], ds[i]))
            && (forall id :: id in t.decisions ==> id in decisions || exists i :: 0 <= i < n && ds[i].callId == id)
    decreases |ds|
  {
    if ds != [] && ds[0].callId in pending {
      var d := ds[0];
      var next := if d.callId in decisions then decisions else decisions[d.callId := d.(decidedAt := now)];
      if d.callId !in decisions || SameAnswer(decisions[d.callId], d) {
        TakePrefix(pending, next, ds[1..], now);
        TakeKeeps(pending, next, ds[1..], now);
        TakeShift(ds);
        var t := Take(pending, next, ds[1..], now);
        var m := TakenCount(pending, next, ds[1..], now);
        forall id | id in t.decisions ensures id in decisions || exists i :: 0 <= i < m + 1 && ds[i].callId == id {
          if id in next {
            assert ds[0].callId == d.callId;
          } else {
            var i :| 0 <= i < m && ds[1..][i].callId == id;
            assert ds[i + 1].callId == id;
          }
        }
      }
    }
  }

  /** The submission is accepted exactly when the prefix is all of it; otherwise the next decision is at fault: it
      addresses no pending call, or contradicts the decision that stands. */
  lemma {:induction false} TakeStops(pending: seq<string>, decisions: map<string, Decision>, ds: seq<Decision>, now: int)
    ensures var t := Take(pending, decisions, ds, now); var n := TakenCount(pending, decisions, ds, now);
            && (t.err == None <==> n == |ds|)
            && (n < |ds| && ds[n].callId !in pending ==> t.err == Some(UnknownToolCall))
            && (n < |ds| && ds[n].callId in pending ==> t.err == Some(DecisionConflict))
            && (n < |ds| && ds[n].callId in pending ==> ds[n].callId in t.decisions && !StandsAs(t.decisions[ds[n].callId], ds[n]))
    decreases |ds|
  {
    if ds != [] && ds[0].callId in pending {
      var d := ds[0];
      if d.callId !in decisions {
        TakeStops(pending, decisions[d.callId := d.(decidedAt := now)], ds[1..], now);
      } else if SameAnswer(decisions[d.callId], d) {
        TakeStops(pending, decisions, ds[1..], now);
      }
    }
  }

  /** The i-th decision of a submission says otherwise than the one that stood before, or than an earlier one with it. */
  ghost predicate Clashes(decisions: map<string, Decision>, ds: seq<Decision>, i: nat)
    requires i < |ds|
  {
    || (ds[i].callId in decisions && !StandsAs(decisions[ds[i].callId], ds[i]))
    || (exists j :: 0 <= j < i && ds[j].callId == ds[i].callId && !StandsAs(ds[j], ds[i]))
  }

  /** A submission is accepted exactly if all it addresses is pending and none of its decisions clashes. */
  lemma AcceptedIff(pending: seq<string>, decisions: map<string, Decision>, ds: seq<Decision>, now: int)
    ensures Take(pending, decisions, ds, now).err == None
            <==> forall i: nat :: i < |ds| ==> ds[i].callId in pending && !Clashes(decisions, ds, i)
  {
    var t, n := Take(pending, decisions, ds, now), TakenCount(pending, decisions, ds, now);
    TakeKeeps(pending, decisions, ds, now);
    TakePrefix(pending, decisions, ds, now);
    TakeStops(pending, decisions, ds, now);
    TakenPending(pending, decisions, ds, now);
    hide Take, TakenCount, NoDup;
    if n < |ds| && ds[n].callId in pending {
      var id := ds[n].callId;
      if id !in decisions {
        var j :| 0 <= j < n && ds[j].callId == id;
      }
      assert Clashes(decisions, ds, n);
    }
  }

  lemma {:induction false} TakenPending(pending: seq<string>, decisions: map<string, Decision>, ds: seq<Decision>, now: int)
    ensures forall i :: 0 <= i < TakenCount(pending, decisions, ds, now) ==> ds[i].callId in pending
    decreases |ds|
  {
    if ds != [] && ds[0].callId in pending {
      var d := ds[0];
      if d.callId !in decisions {
        TakenPending(pending, decisions[d.callId := d.(decidedAt := now)], ds[1..], now);
      } else if SameAnswer(decisions[d.callId], d) {
        TakenPending(pending, decisions, ds[1..], now);
      }
    }
  }

  /** The new ids are listed in the order in which they were first submitted. */
  lemma {:induction false} CommittedInOrder(pending: seq<string>, decisions: map<string, Decision>, ds: seq<Decision>, now: int,
                                            a: nat, b: nat, q: nat)
    requires var ids := Take(pending, decisions, ds, now).committed;
             a < b < |ids| && q < |ds| && ds[q].callId == ids[b]
    ensures exists p :: 0 <= p < q && ds[p].callId == Take(pending, decisions, ds, now).committed[a]
    decreases |ds|
  {
    var d := ds[0];
    TakeKeeps(pending, decisions, ds, now);
    if d.callId in decisions {
      assert Take(pending, decisions, ds, now).committed[b] in Take(pending, decisions, ds, now).committed;
      CommittedInOrder(pending, decisions, ds[1..], now, a, b, q - 1);
      ShiftedBack(ds, q - 1, Take(pending, decisions, ds, now).committed[a]);
    } else {
      var rest := Take(pending, decisions[d.callId := d.(decidedAt := now)], ds[1..], now).committed;
      var ids := Take(pending, decisions, ds, now).committed;
      assert ids == [d.callId] + rest && ids[0] != ids[b];
      if a > 0 {
        CommittedInOrder(pending, decisions[d.callId := d.(decidedAt := now)], ds[1..], now, a - 1, b - 1, q - 1);
        ShiftedBack(ds, q - 1, rest[a - 1]);
      } else {
        assert ds[0].callId == d.callId;
      }
    }
  }

  lemma ShiftedBack(ds: seq<Decision>, q: nat, id: string)
    requires ds != [] && exists p :: 0 <= p < q && p < |ds| - 1 && ds[1..][p].callId == id
    ensures exists p :: 0 <= p < q + 1 && p < |ds| && ds[p].callId == id
  {
    var p :| 0 <= p < q && p < |ds| - 1 && ds[1..][p].callId == id;
    assert ds[p + 1].callId == id;
  }

  lemma TakeShift(ds: seq<Decision>)
    requires ds != []
    ensures forall i :: 0 < i < |ds| ==> ds[i] == ds[1..][i - 1]
  {
  }

  // ---- what every call keeps

  /** The call changed the record's state, as opposed to being refused or repeating what stands. */
  ghost predicate Wrote(op: Op, a: Reply) {
    if op.SubmitOp? then a.committed != [] else a.err == None
  }

  /** Pending exactly while some pending call is undecided; nothing else is ever decided. */
  ghost predicate Consistent(r: Rec) {
    && (r.status == Pending <==> !AllDecided(r.pending, r.decisions))
    && (forall id :: id in r.decisions ==> id in r.pending)
  }

  /** One call: the frozen part stays, decisions only grow, and the revision rises by one exactly when it wrote. */
  lemma StepKeeps(r: Rec, op: Op)
    ensures var (next, a) := Step(r, op);
            && next.frozen == r.frozen && next.pending == r.pending
            && (forall id :: id in r.decisions ==> id in next.decisions && next.decisions[id] == r.decisions[id])
            && (forall id :: id in a.committed <==> id in next.decisions && id !in r.decisions)
            && NoDup(a.committed)
            && (if Wrote(op, a) then next.revision == r.revision + 1 else next == r)
            && (Consistent(r) ==> Consistent(next))
  {
    if op.SubmitOp? && r.status != Completed {
      TakeKeeps(r.pending, r.decisions, op.ds, op.now);
      TakenNothing(r.pending, r.decisions, op.ds, op.now);
    }
  }

  lemma {:induction false} TakenNothing(pending: seq<string>, decisions: map<string, Decision>, ds: seq<Decision>, now: int)
    ensures Take(pending, decisions, ds, now).committed == [] ==> Take(pending, decisions, ds, now).decisions == decisions
    decreases |ds|
  {
    if ds != [] && ds[0].callId in decisions {
      TakenNothing(pending, decisions, ds[1..], now);
    }
  }

  lemma BornIsConsistent(r: Rec)
    requires Born(r)
    ensures Consistent(r)
  {
    assert r.pending[0] in r.pending;
  }

  /** Over any history the status says Pending exactly while some pending call is undecided. */
  lemma {:induction false} AlwaysConsistent(r: Rec, ops: seq<Op>)
    requires Born(r)
    ensures Consistent(After(r, ops)) && After(r, ops).pending == r.pending && After(r, ops).frozen == r.frozen
  {
    if ops == [] {
      BornIsConsistent(r);
    } else {
      hide Step;
      AlwaysConsistent(r, ops[..|ops| - 1]);
      StepKeeps(After(r, ops[..|ops| - 1]), ops[|ops| - 1]);
    }
  }

  // ---- decisions over a history

  /** The ids that the calls of a history reported as committed, joined. */
  function AllCommitted(r: Rec, ops: seq<Op>): seq<string> {
    if ops == [] then []
    else AllCommitted(r, ops[..|ops| - 1]) + Step(After(r, ops[..|ops| - 1]), ops[|ops| - 1]).1.committed
  }

  lemma NoDupJoin<T(!new)>(a: seq<T>, b: seq<T>)
    requires a != [] ==> NoDup(a)
    requires b != [] ==> NoDup(b)
    requires forall x :: x in a ==> x !in b
    ensures NoDup(a + b)
  {
    forall i, j | 0 <= i < j < |a + b| ensures (a + b)[i] != (a + b)[j] {
      if i < |a| <= j {
        assert a[i] in a && b[j - |a|] in b;
      }
    }
  }

  /** Over any history of any submitters, the committed lists joined enumerate the decided ids, each exactly once. */
  lemma {:induction false} CommittedOnce(r: Rec, ops: seq<Op>)
    requires Born(r)
    ensures NoDup(AllCommitted(r, ops))
    ensures forall id :: id in AllCommitted(r, ops) <==> id in After(r, ops).decisions
  {
    hide Step, NoDup;
    if ops == [] {
      NoDupJoin<string>([], []);
      assert AllCommitted(r, ops) == [] + [];
    } else {
      var init := ops[..|ops| - 1];
      CommittedOnce(r, init);
      StepKeeps(After(r, init), ops[|ops| - 1]);
      NoDupJoin(AllCommitted(r, init), Step(After(r, init), ops[|ops| - 1]).1.committed);
    }
  }

  /** A committed decision never changes. */
  lemma {:induction false} DecisionStands(r: Rec, ops: seq<Op>, i: nat, id: string)
    requires i <= |ops| && id in After(r, ops[..i]).decisions
    ensures id in After(r, ops).decisions && After(r, ops).decisions[id] == After(r, ops[..i]).decisions[id]
    decreases |ops|
  {
    hide Step;
    if i == |ops| {
      assert ops[..i] == ops;
    } else {
      var init := ops[..|ops| - 1];
      assert init[..i] == ops[..i];
      DecisionStands(r, init, i, id);
      StepKeeps(After(r, init), ops[|ops| - 1]);
    }
  }

  function Writes(r: Rec, ops: seq<Op>): nat {
    if ops == [] then 0
    else
      Writes(r, ops[..|ops| - 1])
      + var a := Step(After(r, ops[..|ops| - 1]), ops[|ops| - 1]).1;
        if (if ops[|ops| - 1].SubmitOp? then a.committed != [] else a.err == None) then 1 else 0
  }

  /** The revision counts the calls that wrote something. */
  lemma {:induction false} RevisionCounts(r: Rec, ops: seq<Op>)
    ensures After(r, ops).revision == r.revision + Writes(r, ops)
  {
    hide Step;
    if ops != [] {
      RevisionCounts(r, ops[..|ops| - 1]);
      StepKeeps(After(r, ops[..|ops| - 1]), ops[|ops| - 1]);
    }
  }

  /** A submission never revokes a lease, whatever it submits and however it ends. */
  lemma SubmitKeepsLease(r: Rec, ds: seq<Decision>, now: int)
    ensures var next := Submit(r, ds, now).0;
            && next.owner == r.owner && next.expires == r.expires
            && (r.status != Pending ==> next.status == r.status)
  {
  }

  // ---- the lease over a history

  /** The i-th call acquired, released or completed. */
  ghost predicate Moved(r: Rec, ops: seq<Op>, i: nat)
    requires i < |ops|
  {
    !ops[i].SubmitOp? && Answer(r, ops, i).err == None
  }

  /** The latest lease call that succeeded was i, an acquire. */
  ghost predicate HeldSince(r: Rec, ops: seq<Op>, i: nat) {
    i < |ops| && ops[i].AcquireOp? && Moved(r, ops, i) && forall k :: i < k < |ops| ==> !Moved(r, ops, k)
  }

  lemma EarlierAnswer(r: Rec, ops: seq<Op>, i: nat)
    requires i < |ops| - 1
    ensures Moved(r, ops[..|ops| - 1], i) <==> Moved(r, ops, i)
  {
    hide Step;
    assert ops[..|ops| - 1][..i] == ops[..i];
  }

  /** The record is leased exactly while the latest successful lease call is an acquire, to that caller and until the
      time it asked for. */
  lemma {:induction false} LeaseIsLatest(r: Rec, ops: seq<Op>, i: nat)
    requires Born(r) && HeldSince(r, ops, i)
    ensures After(r, ops).status == Resuming && After(r, ops).owner == ops[i].owner
    ensures After(r, ops).expires == ops[i].now + ops[i].ttl
    decreases |ops|
  {
    var last := |ops| - 1;
    var init := ops[..last];
    if i < last {
      hide Step;
      forall k | 0 <= k < last ensures Moved(r, init, k) <==> Moved(r, ops, k) {
        EarlierAnswer(r, ops, k);
      }
      LeaseIsLatest(r, init, i);
      assert !Moved(r, ops, last);
      Unmoved(r, ops);
    }
  }

  lemma Unmoved(r: Rec, ops: seq<Op>)
    requires ops != [] && !Moved(r, ops, |ops| - 1) && After(r, ops[..|ops| - 1]).status != Pending
    ensures After(r, ops).status == After(r, ops[..|ops| - 1]).status
    ensures After(r, ops).owner == After(r, ops[..|ops| - 1]).owner && After(r, ops).expires == After(r, ops[..|ops| - 1]).expires
  {
    var was := After(r, ops[..|ops| - 1]);
    if ops[|ops| - 1].SubmitOp? {
      SubmitKeepsLease(was, ops[|ops| - 1].ds, ops[|ops| - 1].now);
    }
  }

  lemma {:induction false} ResumingHasHolder(r: Rec, ops: seq<Op>) returns (i: nat)
    requires Born(r) && After(r, ops).status == Resuming
    ensures HeldSince(r, ops, i)
    decreases |ops|
  {
    hide Step;
    var last := |ops| - 1;
    if ops == [] {
      assert false;
    } else if Moved(r, ops, last) {
      i := last;
      OnlyAcquireResumes(r, ops);
    } else {
      hide Moved, After;
      NotMovedStays(r, ops);
      var init := ops[..last];
      i := ResumingHasHolder(r, init);
      forall k | 0 <= k < last ensures Moved(r, init, k) <==> Moved(r, ops, k) {
        EarlierAnswer(r, ops, k);
      }
    }
  }

  lemma OnlyAcquireResumes(r: Rec, ops: seq<Op>)
    requires ops != [] && Moved(r, ops, |ops| - 1) && After(r, ops).status == Resuming
    ensures ops[|ops| - 1].AcquireOp?
  {
  }

  lemma NotMovedStays(r: Rec, ops: seq<Op>)
    requires ops != [] && !Moved(r, ops, |ops| - 1) && After(r, ops).status == Resuming
    ensures After(r, ops[..|ops| - 1]).status == Resuming
  {
  }

  /** Release and completion succeed exactly for the owner of the latest acquire, and only while nothing has ended it. */
  lemma OnlyHolderGives(r: Rec, ops: seq<Op>, owner: string, now: int, done: bool)
    requires Born(r)
    ensures Step(After(r, ops), if done then CompleteOp(owner, now) else ReleaseOp(owner, now)).1.err == None
            <==> exists i: nat :: HeldSince(r, ops, i) && ops[i].owner == owner
  {
    if exists i: nat :: HeldSince(r, ops, i) && ops[i].owner == owner {
      var i: nat :| HeldSince(r, ops, i) && ops[i].owner == owner;
      LeaseIsLatest(r, ops, i);
    }
    if After(r, ops).status == Resuming && After(r, ops).owner == owner {
      var i := ResumingHasHolder(r, ops);
      LeaseIsLatest(r, ops, i);
    }
  }

  /** An acquire that follows another, with no release or completion between, comes no sooner than that one's expiry. */
  lemma NextAcquire(r: Rec, ops: seq<Op>, i: nat, j: nat)
    requires Born(r) && i < j < |ops| && HeldSince(r, ops[..j], i)
    requires ops[j].AcquireOp? && Moved(r, ops, j)
    ensures ops[j].now >= ops[i].now + ops[i].ttl
  {
    LeaseIsLatest(r, ops[..j], i);
  }

  ghost predicate NoGiveBetween(r: Rec, ops: seq<Op>, i: nat, j: nat)
    requires j <= |ops|
  {
    forall k :: i < k < j && Moved(r, ops, k) ==> ops[k].AcquireOp?
  }

  /** From i to j the clock is never set back; or else no acquire between them asks for a lease already over. */
  ghost predicate Steady(ops: seq<Op>, i: nat, j: nat)
    requires j < |ops|
  {
    || (forall k, l :: i <= k <= l <= j ==> ops[k].now <= ops[l].now)
    || (forall k :: i < k < j && ops[k].AcquireOp? ==> ops[k].ttl >= 0)
  }

  lemma MovedPrefix(r: Rec, ops: seq<Op>, j: nat, k: nat)
    requires k < j <= |ops|
    ensures Moved(r, ops[..j], k) <==> Moved(r, ops, k)
  {
    hide Step;
    assert ops[..j][..k] == ops[..k];
  }

  /** Two successful acquires with no release or completion between them are at least the first one's ttl apart. */
  lemma {:induction false} AcquiresApart(r: Rec, ops: seq<Op>, i: nat, j: nat)
    requires Born(r) && i < j < |ops| && ops[i].AcquireOp? && Moved(r, ops, i) && ops[j].AcquireOp? && Moved(r, ops, j)
    requires NoGiveBetween(r, ops, i, j) && Steady(ops, i, j)
    ensures ops[j].now >= ops[i].now + ops[i].ttl
    decreases j - i
  {
    hide Step;
    if exists k :: i < k < j && Moved(r, ops, k) {
      var k :| i < k < j && Moved(r, ops, k);
      AcquiresApart(r, ops, i, k);
      if ops[j].now < ops[k].now {
        AcquiresApart(r, ops, k, j);
      }
    } else {
      forall k | i <= k < j ensures Moved(r, ops[..j], k) <==> Moved(r, ops, k) {
        MovedPrefix(r, ops, j, k);
      }
      assert ops[..j][i] == ops[i];
      NextAcquire(r, ops, i, j);
    }
  }

  /** While a lease lives, of any acquires that race for it, from any callers, only the first is granted. */
  lemma OneWinner(r: Rec, ops: seq<Op>, i: nat, j: nat)
    requires Born(r) && i < j < |ops| && ops[i].AcquireOp? && Moved(r, ops, i) && ops[j].AcquireOp?
    requires NoGiveBetween(r, ops, i, j) && Steady(ops, i, j) && ops[j].now < ops[i].now + ops[i].ttl
    ensures Answer(r, ops, j).err == Some(LeaseHeld)
  {
    hide Step;
    if Moved(r, ops, j) {
      AcquiresApart(r, ops, i, j);
    }
    forall k | 0 <= k < j ensures Moved(r, ops[..j], k) <==> Moved(r, ops, k) {
      MovedPrefix(r, ops, j, k);
    }
    var m := LatestMove(r, ops, i, j);
    assert HeldSince(r, ops[..j], m);
    LeaseIsLatest(r, ops[..j], m);
    Refused(After(r, ops[..j]), ops[j]);
  }

  lemma Refused(r: Rec, op: Op)
    requires r.status == Resuming && op.AcquireOp? && Step(r, op).1.err != None
    ensures Step(r, op).1.err == Some(LeaseHeld)
  {
  }

  lemma {:induction false} LatestMove(r: Rec, ops: seq<Op>, i: nat, j: nat) returns (m: nat)
    requires i < j <= |ops| && Moved(r, ops, i)
    ensures i <= m < j && Moved(r, ops, m) && forall k :: m < k < j ==> !Moved(r, ops, k)
    decreases j - i
  {
    hide Step, Moved;
    m := j - 1;
    while !Moved(r, ops, m)
      invariant i <= m < j
      invariant forall k :: m < k < j ==> !Moved(r, ops, k)
      decreases m
    {
      m := m - 1;
    }
  }

  // ---- completion

  /** A completed record answers every call with an error and never changes again. */
  lemma {:induction false} CompletedIsFinal(r: Rec, ops: seq<Op>, i: nat)
    requires i < |ops| && ops[i].CompleteOp? && Answer(r, ops, i).err == None
    ensures After(r, ops) == After(r, ops[..i + 1]) && After(r, ops).status == Completed
    ensures i < |ops| - 1 ==> Answer(r, ops, |ops| - 1).err != None
    decreases |ops|
  {
    hide Step;
    var last := |ops| - 1;
    if i == last {
      assert ops[..i + 1] == ops;
      NowCompleted(After(r, ops[..last]), ops[last]);
    } else {
      var init := ops[..last];
      assert init[..i + 1] == ops[..i + 1] && init[..i] == ops[..i];
      CompletedIsFinal(r, init, i);
      StaysCompleted(After(r, init), ops[last]);
    }
  }

  lemma NowCompleted(r: Rec, op: Op)
    requires op.CompleteOp? && Step(r, op).1.err == None
    ensures Step(r, op).0.status == Completed
  {
  }

  lemma StaysCompleted(r: Rec, op: Op)
    requires r.status == Completed
    ensures Step(r, op).0 == r && Step(r, op).1.err != None
  {
  }

  /** At most one completion ever succeeds. */
  lemma CompletesOnce(r: Rec, ops: seq<Op>, i: nat, j: nat)
    requires i < j < |ops| && ops[i].CompleteOp? && Answer(r, ops, i).err == None
    ensures Answer(r, ops, j).err != None
  {
    hide Step;
    var upTo := ops[..j + 1];
    assert upTo[..i] == ops[..i] && upTo[..j] == ops[..j];
    CompletedIsFinal(r, upTo, i);
  }

  // ---- what the status says about the history

  /** Some call of the history completed the record. */
  ghost predicate CompletedBy(r: Rec, ops: seq<Op>, i: nat) {
    i < |ops| && ops[i].CompleteOp? && Answer(r, ops, i).err == None
  }

  lemma {:induction false} CompletedHasCause(r: Rec, ops: seq<Op>) returns (i: nat)
    requires r.status != Completed && After(r, ops).status == Completed
    ensures CompletedBy(r, ops, i)
    decreases |ops|
  {
    hide Step;
    var last := |ops| - 1;
    var init := ops[..last];
    if After(r, init).status == Completed {
      i := CompletedHasCause(r, init);
      assert init[..i] == ops[..i];
    } else {
      i := last;
      OnlyCompleteCompletes(After(r, init), ops[last]);
    }
  }

  lemma OnlyCompleteCompletes(r: Rec, op: Op)
    requires r.status != Completed && Step(r, op).0.status == Completed
    ensures op.CompleteOp? && Step(r, op).1.err == None
  {
  }

  /** The status is the history's: Completed exactly if some completion succeeded, Resuming exactly if the latest
      successful lease call is an acquire, Pending exactly while a pending call is undecided, and Ready otherwise. */
  lemma StatusMeans(r: Rec, ops: seq<Op>)
    requires Born(r)
    ensures After(r, ops).status == Completed <==> exists i: nat :: CompletedBy(r, ops, i)
    ensures After(r, ops).status == Resuming <==> exists i: nat :: HeldSince(r, ops, i)
    ensures After(r, ops).status == Pending <==> exists id :: id in r.pending && id !in After(r, ops).decisions
  {
    hide Step, After, Answer;
    AlwaysConsistent(r, ops);
    if exists i: nat :: CompletedBy(r, ops, i) {
      var i: nat :| CompletedBy(r, ops, i);
      CompletedIsFinal(r, ops, i);
    }
    if After(r, ops).status == Completed {
      var i := CompletedHasCause(r, ops);
    }
    if exists i: nat :: HeldSince(r, ops, i) {
      var i: nat :| HeldSince(r, ops, i);
      LeaseIsLatest(r, ops, i);
    }
    if After(r, ops).status == Resuming {
      var i := ResumingHasHolder(r, ops);
    }
  }

  /** After any history an acquire is granted exactly if every pending call is decided, no completion has succeeded, and
      the lease last granted, unless given back, runs out by now; it is refused for the first of these that fails. */
  lemma AcquireIff(r: Rec, ops: seq<Op>, owner: string, ttl: int, now: int)
    requires Born(r)
    ensures var decided := forall id :: id in r.pending ==> id in After(r, ops).decisions;
            var completed := exists i: nat :: CompletedBy(r, ops, i);
            var leased := exists i: nat :: HeldSince(r, ops, i) && now < ops[i].now + ops[i].ttl;
            Step(After(r, ops), AcquireOp(owner, ttl, now)).1.err ==
              if completed then Some(AlreadyCompleted)
              else if !decided then Some(NotReady)
              else if leased then Some(LeaseHeld)
              else None
  {
    hide After, Answer;
    StatusMeans(r, ops);
    AlwaysConsistent(r, ops);
    if After(r, ops).status == Resuming {
      var i := ResumingHasHolder(r, ops);
      LeaseIsLatest(r, ops, i);
      forall k: nat | HeldSince(r, ops, k) ensures k == i {
      }
    }
  }

  /** Whoever leased a record leaves no trace of the lease: unleased again, it names no owner and no expiry. */
  lemma {:induction false} GivenBackIsBlank(r: Rec, ops: seq<Op>)
    requires r.status == Pending && r.owner == NO_OWNER && r.expires == NO_TIME
    ensures After(r, ops).status != Resuming ==> After(r, ops).owner == "" && After(r, ops).expires == 0
  {
    if ops != [] {
      var last := |ops| - 1;
      GivenBackIsBlank(r, ops[..last]);
      if ops[last].SubmitOp? {
        SubmitKeepsLease(After(r, ops[..last]), ops[last].ds, ops[last].now);
      }
    }
  }

  /** The record bears the time of the latest call that wrote it. */
  lemma {:induction false} StampedByLatest(r: Rec, ops: seq<Op>, i: nat)
    requires i < |ops| && Wrote(ops[i], Answer(r, ops, i))
    requires forall k :: i < k < |ops| ==> !Wrote(ops[k], Answer(r, ops, k))
    ensures After(r, ops).updatedAt == ops[i].now
    decreases |ops|
  {
    var last := |ops| - 1;
    var init := ops[..last];
    if i < last {
      hide Step;
      forall k | 0 <= k < last ensures init[..k] == ops[..k] {
      }
      StampedByLatest(r, init, i);
      StepKeeps(After(r, init), ops[last]);
      assert !Wrote(ops[last], Answer(r, ops, last));
    }
  }

  // ---- where the code and the documented contract differ

  /** The contract promises that release is refused once the lease has expired; neither release nor completion looks at
      the clock. Code and promise differ exactly on an expired lease nobody has reclaimed. */
  lemma ExpiryIsNotChecked(r: Rec, owner: string, now: int, done: bool)
    ensures var promised := r.status == Resuming && r.owner == owner && r.expires > now;
            var err := Step(r, if done then CompleteOp(owner, now) else ReleaseOp(owner, now)).1.err;
            (err == None <==> promised) <==> !(r.status == Resuming && r.owner == owner && r.expires <= now)
  {
  }

  /** The contract promises AlreadyCompleted for a second completion; the code answers LeaseNotOwned. */
  lemma SecondCompletion(r: Rec, owner: string, now: int)
    requires r.status == Completed
    ensures Step(r, CompleteOp(owner, now)).1.err == Some(LeaseNotOwned)
  {
  }

  /** One and the same answer for every pending call. */
  function AnswerAll(pending: seq<string>): (ds: seq<Decision>)
    ensures |ds| == |pending| && forall i :: 0 <= i < |ds| ==> ds[i] == Decision(pending[i], "", false, false, NO_TIME)
  {
    seq(|pending|, i requires 0 <= i < |pending| => Decision(pending[i], "", false, false, NO_TIME))
  }

  lemma AllAnswered(r: Rec, now: int)
    requires Born(r)
    ensures Submit(r, AnswerAll(r.pending), now).0.status == Ready
  {
    var ds := AnswerAll(r.pending);
    var t, n := Take(r.pending, map[], ds, now), TakenCount(r.pending, map[], ds, now);
    TakeKeeps(r.pending, map[], ds, now);
    TakePrefix(r.pending, map[], ds, now);
    TakeStops(r.pending, map[], ds, now);
    assert forall i :: 0 <= i < |ds| ==> ds[i].callId in r.pending;
    assert n == |ds|;
    forall id | id in r.pending ensures id in t.decisions {
      var i :| 0 <= i < |r.pending| && r.pending[i] == id;
      assert ds[i].callId == id;
    }
    assert r.pending[0] in t.committed;
  }

  /** Every record that is ever created can get there: all is decided, an owner takes the lease, lets it run out, and
      still gives it back, or completes; a second completion is then answered LeaseNotOwned. */
  lemma ExpiredIsReached(r: Rec, owner: string, ttl: int, start: int, late: int, done: bool) returns (ops: seq<Op>)
    requires Born(r) && late >= start + ttl
    ensures ops == [SubmitOp(AnswerAll(r.pending), start), AcquireOp(owner, ttl, start),
                    if done then CompleteOp(owner, late) else ReleaseOp(owner, late), CompleteOp(owner, late)]
    ensures Answer(r, ops, 1).err == None && Answer(r, ops, 2).err == None && After(r, ops[..2]).expires <= late
    ensures Answer(r, ops, 3).err == Some(LeaseNotOwned)
  {
    ops := [SubmitOp(AnswerAll(r.pending), start), AcquireOp(owner, ttl, start),
            if done then CompleteOp(owner, late) else ReleaseOp(owner, late), CompleteOp(owner, late)];
    AllAnswered(r, start);
    AfterFirst(r, ops, 0);
    AfterFirst(r, ops, 1);
    AfterFirst(r, ops, 2);
    hide Submit, Audited, After, AllDecided, Take;
    assert After(r, ops[..0]) == r by { AfterNone(r, ops); }
  }

  lemma AfterNone(r: Rec, ops: seq<Op>)
    ensures After(r, ops[..0]) == r
  {
  }

  lemma AfterFirst(r: Rec, ops: seq<Op>, i: nat)
    requires i < |ops|
    ensures After(r, ops[..i + 1]) == Step(After(r, ops[..i]), ops[i]).0
  {
    hide Step;
    assert ops[..i + 1][..i] == ops[..i];
  }
}
