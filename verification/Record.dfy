/** Interrupt records as the stores handle them: checked when created, then changed in place under a lock. */
module Record {
  import opened Graph
  import opened Wrappers
  import opened Interrupt

  const CURRENT_VERSION := 3

  /** Version 2 is the layout without a policy fingerprint. */
  predicate VersionReadable(v: int) {
    v == 2 || v == CURRENT_VERSION
  }

  // ---- checks

  predicate IdChar(c: char) {
    'a' <= c <= 'z' || 'A' <= c <= 'Z' || '0' <= c <= '9' || c == '-' || c == '_'
  }

  predicate ValidId(id: string) {
    0 < |id| <= MAX_ID && forall c :: c in id ==> IdChar(c)
  }

  method ValidateId(id: string) returns (err: Option<Error>)
    ensures err in {None, Some(InvalidArgument)}
    ensures err == None <==> ValidId(id)
  {
    if id == "" { return Some(InvalidArgument); }
    if |id| > MAX_ID { return Some(InvalidArgument); }
    for i := 0 to |id|
      invariant forall k :: 0 <= k < i ==> IdChar(id[k])
    {
      if !IdChar(id[i]) { return Some(InvalidArgument); }
    }
    err := None;
  }

  /** What a caller must supply: a named owner, a batch of distinct calls, and some of them pending, each once. */
  ghost predicate Creatable(r: Rec) {
    && r.frozen.session != "" && r.frozen.agent != "" && r.frozen.protocol != ""
    && r.frozen.calls != [] && "" !in r.frozen.calls && NoDup(r.frozen.calls)
    && r.pending != [] && NoDup(r.pending) && forall id :: id in r.pending ==> id in r.frozen.calls
  }

  method ValidateNewRecord(rec: Option<Rec>) returns (err: Option<Error>)
    ensures err in {None, Some(InvalidArgument)}
    ensures err == None <==> rec.Some? && Creatable(rec.value)
  {
    if rec.None? { return Some(InvalidArgument); }
    var f, pending := rec.value.frozen, rec.value.pending;
    if f.session == "" || f.agent == "" || f.protocol == "" || |f.calls| == 0 { return Some(InvalidArgument); }
    var known: set<string> := {};
    for i := 0 to |f.calls|
      invariant known == Elems(f.calls[..i]) && "" !in f.calls[..i] && NoDup(f.calls[..i])
    {
      var c := f.calls[i];
      if c == "" { return Some(InvalidArgument); }
      if c in known {
        var k :| 0 <= k < i && f.calls[k] == c;
        return Some(InvalidArgument);
      }
      known := known + {c};
      assert f.calls[..i + 1] == f.calls[..i] + [c];
    }
    assert f.calls[..|f.calls|] == f.calls;
    if |pending| == 0 { return Some(InvalidArgument); }
    var seen: set<string> := {};
    for i := 0 to |pending|
      invariant seen == Elems(pending[..i]) && seen <= known && NoDup(pending[..i])
    {
      var id := pending[i];
      if id == "" { return Some(InvalidArgument); }
      if id !in known { return Some(InvalidArgument); }
      if id in seen {
        var k :| 0 <= k < i && pending[k] == id;
        return Some(InvalidArgument);
      }
      seen := seen + {id};
      assert pending[..i + 1] == pending[..i] + [id];
    }
    assert pending[..|pending|] == pending;
    forall id | id in pending ensures id in f.calls {
      assert id in seen;
    }
    err := None;
  }

  /** The record as stored: identity, revision and status are the store's, the rest the caller's. */
  function Created(r: Rec, id: string, now: int): Rec {
    r.(frozen := r.frozen.(version := CURRENT_VERSION, id := id, createdAt := now), revision := 1, updatedAt := now,
       status := if r.pending == [] then Ready else Pending)
  }

  /** A creatable record without decisions is born pending, with its first revision. */
  lemma CreatedIsBorn(r: Rec, id: string, now: int)
    requires Creatable(r) && r.decisions == map[]
    ensures Born(Created(r, id, now)) && Consistent(Created(r, id, now)) && VersionReadable(Created(r, id, now).frozen.version)
  {
    BornIsConsistent(Created(r, id, now));
  }

  // ---- transitions in place

  lemma AuditedForgets(r: Rec, decisions: map<string, Decision>, now: int)
    ensures Audited(r.(decisions := decisions), decisions, now) == Audited(r, decisions, now)
  {
  }

  /** What is taken of the rest of a submission, one decision on. */
  lemma TakeNext(pending: seq<string>, decisions: map<string, Decision>, ds: seq<Decision>, i: nat, now: int)
    requires i < |ds|
    ensures var d := ds[i]; var t := Take(pending, decisions, ds[i..], now);
            if d.callId !in pending then t == Taken(decisions, [], Some(UnknownToolCall))
            else if d.callId in decisions then
              t == if SameAnswer(decisions[d.callId], d) then Take(pending, decisions, ds[i + 1..], now)
                   else Taken(decisions, [], Some(DecisionConflict))
            else
              var rest := Take(pending, decisions[d.callId := d.(decidedAt := now)], ds[i + 1..], now);
              t == rest.(committed := [d.callId] + rest.committed)
  {
    assert ds[i..][1..] == ds[i + 1..] && ds[i..][0] == ds[i];
  }

  lemma TakeEnd(pending: seq<string>, decisions: map<string, Decision>, now: int)
    ensures Take(pending, decisions, [], now) == Taken(decisions, [], None)
  {
  }

  class Record {
    const frozen: Frozen
    const pending: seq<string>
    var decisions: map<string, Decision>
    var status: Status
    var revision: int
    var owner: string
    var expires: int
    var updatedAt: int

    constructor (r: Rec)
      ensures View() == r
    {
      frozen, pending, decisions, status := r.frozen, r.pending, r.decisions, r.status;
      revision, owner, expires, updatedAt := r.revision, r.owner, r.expires, r.updatedAt;
    }

    function View(): Rec
      reads this
    {
      Rec(frozen, pending, decisions, status, revision, owner, expires, updatedAt)
    }

    method Decided() returns (all: bool)
      ensures all == AllDecided(pending, decisions)
    {
      for i := 0 to |pending|
        invariant forall k :: 0 <= k < i ==> pending[k] in decisions
      {
        if pending[i] !in decisions { return false; }
      }
      all := true;
    }

    /** Only ever turns Pending into Ready, so a resubmission cannot drop a live lease. */
    method CommitAudit(now: int)
      modifies this
      ensures View() == Audited(old(View()), old(decisions), now)
    {
      if status == Pending {
        var all := Decided();
        if all { status := Ready; }
      }
      updatedAt := now;
      revision := revision + 1;
    }

    method AuditIfAny(committed: seq<string>, now: int)
      modifies this
      ensures View() == if committed == [] then old(View()) else Audited(old(View()), old(decisions), now)
    {
      hide Audited;
      if |committed| > 0 { CommitAudit(now); }
    }

    method ApplyDecisions(ds: seq<Decision>, now: int) returns (committed: seq<string>, err: Option<Error>)
      modifies this
      ensures (View(), Reply(committed, err)) == Submit(old(View()), ds, now)
    {
      hide AllDecided, Audited, Take, SameAnswer;
      committed := [];
      if status == Completed { return [], Some(AlreadyCompleted); }
      ghost var start := decisions;
      ghost var all := Take(pending, start, ds, now);
      assert ds[0..] == ds;
      for i := 0 to |ds|
        invariant View() == old(View()).(decisions := decisions)
        invariant var rest := Take(pending, decisions, ds[i..], now);
                  all == rest.(committed := committed + rest.committed)
        invariant committed == [] ==> decisions == start
      {
        var d := ds[i];
        TakeNext(pending, decisions, ds, i, now);
        assert committed + [] == committed;
        AuditedForgets(old(View()), decisions, now);
        if d.callId !in pending {
          AuditIfAny(committed, now);
          return committed, Some(UnknownToolCall);
        }
        if d.callId in decisions {
          if !SameAnswer(decisions[d.callId], d) {
            AuditIfAny(committed, now);
            return committed, Some(DecisionConflict);
          }
        } else {
          decisions := decisions[d.callId := d.(decidedAt := now)];
          committed := committed + [d.callId];
        }
      }
      assert ds[|ds|..] == [] && committed + [] == committed;
      TakeEnd(pending, decisions, now);
      AuditedForgets(old(View()), decisions, now);
      AuditIfAny(committed, now);
      err := None;
    }

    method AcquireLease(who: string, ttl: int, now: int) returns (err: Option<Error>)
      modifies this
      ensures (View(), Reply([], err)) == Acquire(old(View()), who, ttl, now)
    {
      match status {
        case Completed => return Some(AlreadyCompleted);
        case Pending => return Some(NotReady);
        case Resuming => if expires > now { return Some(LeaseHeld); }
        case Ready =>
      }
      status, owner, expires, updatedAt, revision := Resuming, who, now + ttl, now, revision + 1;
      err := None;
    }

    method ReleaseLease(who: string, now: int) returns (err: Option<Error>)
      modifies this
      ensures (View(), Reply([], err)) == Step(old(View()), ReleaseOp(who, now))
    {
      if status != Resuming || owner != who { return Some(LeaseNotOwned); }
      status, owner, expires, updatedAt, revision := Ready, NO_OWNER, NO_TIME, now, revision + 1;
      err := None;
    }

    method Complete(who: string, now: int) returns (err: Option<Error>)
      modifies this
      ensures (View(), Reply([], err)) == Step(old(View()), CompleteOp(who, now))
    {
      if status != Resuming || owner != who { return Some(LeaseNotOwned); }
      status, owner, expires, updatedAt, revision := Completed, NO_OWNER, NO_TIME, now, revision + 1;
      err := None;
    }
  }
}
