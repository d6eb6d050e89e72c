/** What one store call does to one record, atomically, in each of the two stores. */
module Store {
  import opened Wrappers
  import opened Interrupt
  import opened Record

  datatype Call =
    | Create(rec: Rec, id: string)
    | Get
    | Submit(ds: seq<Decision>)
    | Acquire(owner: string, ttl: int)
    | Release(owner: string)
    | Complete(owner: string)
    | Delete

  /** What a call hands back: a copy of the record, the ids it committed, and the error. */
  datatype Answer = Answer(rec: Option<Rec>, committed: seq<string>, err: Option<Error>)

  function Refuse(e: Error): Answer {
    Answer(None, [], Some(e))
  }

  /** The transition a call asks for. */
  function OpOf(call: Call, now: int): Op
    requires call.Submit? || call.Acquire? || call.Release? || call.Complete?
  {
    match call
    case Submit(ds) => SubmitOp(ds, now)
    case Acquire(owner, ttl) => AcquireOp(owner, ttl, now)
    case Release(owner) => ReleaseOp(owner, now)
    case Complete(owner) => CompleteOp(owner, now)
  }

  /** The file store: it decodes the record before every change, and hands nothing back with a refusal. */
  function FileOp(call: Call, cur: Option<Rec>, now: int): (Option<Rec>, Answer) {
    if call.Delete? then (None, Answer(None, [], None))
    else if cur.Some? && !VersionReadable(cur.value.frozen.version) then (cur, Refuse(UnknownVersion))
    else if call.Create? then (Some(Created(call.rec, call.id, now)), Answer(None, [], None))
    else if cur.None? then (None, Refuse(NotFound))
    else if call.Get? then (cur, Answer(cur, [], None))
    else
      var (next, a) := Step(cur.value, OpOf(call, now));
      var silent := call.Release? || call.Complete? || (a.err.Some? && a.committed == []);
      (Some(next), Answer(if silent then None else Some(next), a.committed, a.err))
  }

  /** The in-memory store: only reading checks the version, and a refused submission still hands back the record,
      unless the record is completed. */
  function MapOp(call: Call, cur: Option<Rec>, now: int): (Option<Rec>, Answer) {
    if call.Delete? then (None, Answer(None, [], None))
    else if call.Create? then (Some(Created(call.rec, call.id, now)), Answer(None, [], None))
    else if cur.None? then (None, Refuse(NotFound))
    else if call.Get? then
      if VersionReadable(cur.value.frozen.version) then (cur, Answer(cur, [], None)) else (cur, Refuse(UnknownVersion))
    else
      var (next, a) := Step(cur.value, OpOf(call, now));
      var loud := (call.Submit? && cur.value.status != Completed) || (call.Acquire? && a.err == None);
      (Some(next), Answer(if loud then Some(next) else None, a.committed, a.err))
  }

  /** The record, if there is one, has a layout this version reads. */
  predicate Legible(cur: Option<Rec>) {
    cur.Some? ==> VersionReadable(cur.value.frozen.version)
  }

  /** A submission whose very first new decision is rejected, on a record still open. */
  ghost predicate RejectedOutright(call: Call, cur: Option<Rec>, now: int) {
    && call.Submit? && cur.Some? && cur.value.status != Completed
    && var a := Step(cur.value, OpOf(call, now)).1; a.err.Some? && a.committed == []
  }

  /** On a record they can both read the stores agree on the state always, and on the answer in all but one case. */
  lemma OneCallAgrees(call: Call, cur: Option<Rec>, now: int)
    requires Legible(cur)
    ensures FileOp(call, cur, now).0 == MapOp(call, cur, now).0
    ensures FileOp(call, cur, now).1.err == MapOp(call, cur, now).1.err
    ensures FileOp(call, cur, now).1.committed == MapOp(call, cur, now).1.committed
    ensures FileOp(call, cur, now).1 == MapOp(call, cur, now).1 <==> !RejectedOutright(call, cur, now)
  {
    hide VersionReadable;
    if call.Submit? && cur.Some? && cur.value.status != Completed {
      TakenNothing(cur.value.pending, cur.value.decisions, call.ds, now);
    }
  }

  /** A record that is created has the current layout, and no call changes the layout of one that is there. */
  lemma StaysLegible(call: Call, cur: Option<Rec>, now: int)
    requires Legible(cur)
    ensures Legible(MapOp(call, cur, now).0)
  {
    hide Step;
    if cur.Some? && (call.Submit? || call.Acquire? || call.Release? || call.Complete?) {
      StepKeeps(cur.value, OpOf(call, now));
    }
  }

  /** What a call hands back is the record as it leaves it, and it hands one back for every read, every acquire and every
      submission that is not refused or has committed something; what is not there can only be created. */
  lemma AnswerMeans(call: Call, cur: Option<Rec>, now: int)
    ensures var (next, a) := FileOp(call, cur, now);
            && (a.rec.Some? ==> a.rec == next)
            && (a.rec.Some? <==> (call.Get? || call.Acquire? || call.Submit?) && (a.err == None || a.committed != []))
            && (call.Get? ==> next == cur)
            && (call.Delete? ==> next == None && a.err == None)
            && (cur == None && !call.Create? && !call.Delete? ==> next == None && a.err == Some(NotFound))
  {
    hide VersionReadable, Step;
  }

  /** What is read back after a creation is the run the caller froze, and what is pending in it; the identity, the time,
      the layout, the first revision and the status are the store's. */
  lemma ReadsBack(rec: Rec, id: string, cur: Option<Rec>, now: int, later: int)
    requires Creatable(rec) && Legible(cur)
    ensures var (next, made) := FileOp(Create(rec, id), cur, now);
            var got := FileOp(Get, next, later).1;
            && made.err == None && got.err == None && got.rec.Some?
            && var r, f := got.rec.value, rec.frozen;
               && r.frozen == Frozen(3, id, f.session, f.agent, f.protocol, f.calls, f.fingerprint, f.supersedes, now)
               && r.pending == rec.pending && r.decisions == rec.decisions
               && r.status == Pending && r.revision == 1 && r.updatedAt == now
               && r.owner == rec.owner && r.expires == rec.expires
    ensures MapOp(Create(rec, id), cur, now) == FileOp(Create(rec, id), cur, now)
  {
  }

  /** A call on one record id, and what the clock said. */
  datatype Timed = Timed(call: Call, now: int)

  function FileAfter(history: seq<Timed>): Option<Rec> {
    if history == [] then None
    else FileOp(history[|history| - 1].call, FileAfter(history[..|history| - 1]), history[|history| - 1].now).0
  }

  function MapAfter(history: seq<Timed>): Option<Rec> {
    if history == [] then None
    else MapOp(history[|history| - 1].call, MapAfter(history[..|history| - 1]), history[|history| - 1].now).0
  }

  lemma {:induction false} SameStates(history: seq<Timed>)
    ensures FileAfter(history) == MapAfter(history) && Legible(MapAfter(history))
  {
    if history != [] {
      hide FileOp, MapOp, Legible;
      var before, last := history[..|history| - 1], history[|history| - 1];
      SameStates(before);
      OneCallAgrees(last.call, MapAfter(before), last.now);
      StaysLegible(last.call, MapAfter(before), last.now);
    } else {
      assert MapAfter(history) == None && FileAfter(history) == None;
    }
  }

  /** After any history of calls on two stores that started out without the record: the two hold the same, and answer
      the next call alike, errors and committed ids always, and in everything exactly unless it is a submission
      rejected outright. */
  lemma StoresAgree(history: seq<Timed>, call: Call, now: int)
    ensures FileAfter(history) == MapAfter(history)
    ensures var f, m := FileOp(call, FileAfter(history), now).1, MapOp(call, MapAfter(history), now).1;
            && f.err == m.err && f.committed == m.committed && m.err != Some(UnknownVersion)
            && (f == m <==> !RejectedOutright(call, MapAfter(history), now))
  {
    hide FileOp, MapOp, Legible, RejectedOutright;
    SameStates(history);
    OneCallAgrees(call, MapAfter(history), now);
    NeverUnknown(call, MapAfter(history), now);
  }

  lemma NeverUnknown(call: Call, cur: Option<Rec>, now: int)
    requires Legible(cur)
    ensures MapOp(call, cur, now).1.err != Some(UnknownVersion)
  {
    hide VersionReadable;
    if call.Submit? && cur.Some? {
      TakeStops(cur.value.pending, cur.value.decisions, call.ds, now);
    }
  }
}
