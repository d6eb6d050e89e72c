/** The file store on one record: processes lock, read, change, write beside, rename and unlock, one step at a time, and
    may crash between any two steps. Every call that took effect did so atomically, in the order of a log. */
module FileStore {
  import opened Wrappers
  import opened Interrupt
  import opened Record
  import opened Store

  /** Failed: cancelled while waiting, out of time, or a file operation failed before the rename. */
  datatype Result = Answered(answer: Answer) | Failed

  /** Where one call stands. A call is made by one process and never restarted. */
  datatype Place =
    | Waiting(call: Call)
    | Locked(call: Call)
    | HasRead(call: Call, cur: Option<Rec>)
    | Writing(call: Call, now: int, next: Rec, answer: Answer)
    | TmpOpen(call: Call, now: int, next: Rec, answer: Answer)
    | TmpFull(call: Call, now: int, next: Rec, answer: Answer)
    | Leaving(call: Call, result: Result)
    | Done(call: Call, result: Result)
    | Dead(call: Call)

  datatype Tmp = Absent | Partial | Full(rec: Rec)

  /** A call took effect. */
  datatype Event = Event(who: nat, call: Call, now: int)

  /** The record file, the file beside it, the lock, the calls, and the log of what took effect. */
  datatype World = World(disk: Option<Rec>, tmp: Tmp, lock: Option<nat>, at: map<nat, Place>, log: seq<Event>)

  datatype Action = Begin(call: Call) | Lock | GiveUp | Load | Read | Compute(now: int) | OpenTmp | FillTmp | WriteFails
                  | Publish | Remove | Unlock | Crash

  const EMPTY := World(None, Absent, None, map[], [])

  /** The callback refuses: nothing is to be written. */
  predicate Aborts(a: Answer) {
    a.err.Some? && a.committed == []
  }

  predicate Critical(l: Place) {
    l.Locked? || l.HasRead? || l.Writing? || l.TmpOpen? || l.TmpFull? || l.Leaving?
  }

  function Move(w: World, p: nat, l: Place): World {
    w.(at := w.at[p := l])
  }

  function Logged(w: World, p: nat, call: Call, now: int): World {
    w.(log := w.log + [Event(p, call, now)])
  }

  /** One step of one call; a step that is not possible changes nothing. */
  function Do(w: World, p: nat, a: Action): World {
    if p !in w.at then if a.Begin? then Move(w, p, Waiting(a.call)) else w
    else if a.Crash? then DoCrash(w, p)
    else
      match w.at[p]
      case Waiting(call) => DoWait(w, p, a, call)
      case Locked(call) => DoLocked(w, p, a, call)
      case HasRead(call, cur) => if a.Compute? then DoCompute(w, p, call, cur, a.now) else w
      case Writing(call, now, next, ans) =>
        if a.OpenTmp? then Move(w, p, TmpOpen(call, now, next, ans)).(tmp := Partial)
        else if a.WriteFails? then Move(w, p, Leaving(call, Failed))
        else w
      case TmpOpen(call, now, next, ans) =>
        if a.FillTmp? then Move(w, p, TmpFull(call, now, next, ans)).(tmp := Full(next))
        else if a.WriteFails? then Move(w, p, Leaving(call, Failed)).(tmp := Absent)
        else w
      case TmpFull(call, now, _, ans) =>
        if a.Publish? && w.tmp.Full? then Logged(Move(w, p, Leaving(call, Answered(ans))), p, call, now).(disk := Some(w.tmp.rec), tmp := Absent)
        else if a.WriteFails? then Move(w, p, Leaving(call, Failed)).(tmp := Absent)
        else w
      case Leaving(call, result) => if a.Unlock? then Move(w, p, Done(call, result)).(lock := None) else w
      case Done(_, _) => w
      case Dead(_) => w
  }

  /** Reading alone needs no lock: the rename makes every content of the file a whole record. */
  function DoWait(w: World, p: nat, a: Action, call: Call): World {
    if a.GiveUp? then Move(w, p, Done(call, Failed))
    else if call.Get? then
      if a.Load? then Logged(Move(w, p, Done(call, Answered(FileOp(Get, w.disk, 0).1))), p, Get, 0) else w
    else if a.Lock? && w.lock.None? then Move(w, p, Locked(call)).(lock := Some(p))
    else w
  }

  function DoLocked(w: World, p: nat, a: Action, call: Call): World {
    if a.GiveUp? then Move(w, p, Leaving(call, Failed))
    else if call.Delete? then
      if a.Remove? then Logged(Move(w, p, Leaving(call, Answered(Answer(None, [], None)))), p, call, 0).(disk := None) else w
    else if a.Read? then
      if w.disk.Some? && !VersionReadable(w.disk.value.frozen.version)
      then Logged(Move(w, p, Leaving(call, Answered(Refuse(UnknownVersion)))), p, call, 0)
      else Move(w, p, HasRead(call, w.disk))
    else w
  }

  function DoCompute(w: World, p: nat, call: Call, cur: Option<Rec>, now: int): World {
    var (next, ans) := FileOp(call, cur, now);
    if Aborts(ans) || next.None? then Logged(Move(w, p, Leaving(call, Answered(ans))), p, call, now)
    else Move(w, p, Writing(call, now, next.value, ans))
  }

  /** The kernel drops a dead process's lock; what it left beside the record stays. */
  function DoCrash(w: World, p: nat): World
    requires p in w.at
  {
    if w.at[p].Done? || w.at[p].Dead? then w
    else Move(w, p, Dead(w.at[p].call)).(lock := if w.lock == Some(p) then None else w.lock)
  }

  /** Any number of processes, any interleaving. */
  function Exec(steps: seq<(nat, Action)>): World {
    if steps == [] then EMPTY
    else
      var s := steps[|steps| - 1];
      Do(Exec(steps[..|steps| - 1]), s.0, s.1)
  }

  // ---- the atomic store

  /** The record after the logged calls, each taken as one atomic step. */
  function Replay(log: seq<Event>): Option<Rec> {
    if log == [] then None
    else
      var e := log[|log| - 1];
      FileOp(e.call, Replay(log[..|log| - 1]), e.now).0
  }

  /** What the i-th logged call would have answered as an atomic step. */
  function AtomicAnswer(log: seq<Event>, i: nat): Answer
    requires i < |log|
  {
    FileOp(log[i].call, Replay(log[..i]), log[i].now).1
  }

  // ---- what every reachable world keeps

  /** Exactly the lock holder is in its critical section. */
  ghost predicate Exclusive(lock: Option<nat>, at: map<nat, Place>) {
    && (lock.Some? ==> lock.value in at)
    && (forall p :: p in at ==> (Critical(at[p]) <==> lock == Some(p)))
  }

  /** Whoever is about to write holds the atomic outcome on the record as it still is. */
  ghost predicate Current(disk: Option<Rec>, tmp: Tmp, l: Place) {
    match l
    case Locked(call) => !call.Get?
    case HasRead(call, cur) => cur == disk && !call.Get? && !call.Delete?
    case Writing(call, now, next, ans) => FileOp(call, disk, now) == (Some(next), ans) && !Aborts(ans)
    case TmpOpen(call, now, next, ans) => FileOp(call, disk, now) == (Some(next), ans) && !Aborts(ans)
    case TmpFull(call, now, next, ans) => FileOp(call, disk, now) == (Some(next), ans) && !Aborts(ans) && tmp == Full(next)
    case _ => true
  }

  ghost predicate AllCurrent(disk: Option<Rec>, tmp: Tmp, at: map<nat, Place>) {
    forall p :: p in at ==> Current(disk, tmp, at[p])
  }

  ghost predicate InLog(log: seq<Event>, p: nat) {
    exists i :: 0 <= i < |log| && log[i].who == p
  }

  ghost predicate Effective(log: seq<Event>, p: nat, call: Call, ans: Answer, i: nat) {
    i < |log| && log[i].who == p && log[i].call == call && AtomicAnswer(log, i) == ans
  }

  /** A call that has answered took effect with that very answer; one that failed or is under way has not. */
  ghost predicate Accounted(log: seq<Event>, p: nat, l: Place) {
    match l
    case Leaving(call, Answered(ans)) => exists i: nat :: Effective(log, p, call, ans, i)
    case Done(call, Answered(ans)) => exists i: nat :: Effective(log, p, call, ans, i)
    case Dead(_) => true
    case _ => !InLog(log, p)
  }

  ghost predicate AllAccounted(log: seq<Event>, at: map<nat, Place>) {
    forall p :: p in at ==> Accounted(log, p, at[p])
  }

  ghost predicate OncePerCall(log: seq<Event>, at: map<nat, Place>) {
    && (forall i, j :: 0 <= i < j < |log| ==> log[i].who != log[j].who)
    && (forall i :: 0 <= i < |log| ==> log[i].who in at)
  }

  ghost predicate Inv(w: World) {
    && Exclusive(w.lock, w.at)
    && AllCurrent(w.disk, w.tmp, w.at)
    && w.disk == Replay(w.log)
    && AllAccounted(w.log, w.at)
    && OncePerCall(w.log, w.at)
  }

  // ---- one lemma per part

  /** The log grows by at most this step's event, and the file changes only with it and as the atomic call would. */
  ghost predicate Grows(w: World, next: World, p: nat) {
    (next.log == w.log && next.disk == w.disk) || exists e :: GrowsBy(w, next, p, e)
  }

  ghost predicate GrowsBy(w: World, next: World, p: nat, e: Event) {
    next.log == w.log + [e] && e.who == p && next.disk == FileOp(e.call, w.disk, e.now).0
  }

  lemma ReadsKeep(call: Call, cur: Option<Rec>, now: int)
    requires !call.Delete?
    ensures call.Get? ==> FileOp(call, cur, now).0 == cur
    ensures cur.Some? && !VersionReadable(cur.value.frozen.version) ==> FileOp(call, cur, now) == (cur, Refuse(UnknownVersion))
    ensures Aborts(FileOp(call, cur, now).1) ==> FileOp(call, cur, now).0 == cur
    ensures FileOp(call, cur, now).0.None? ==> cur.None?
  {
    if cur.Some? && !call.Get? && !call.Create? {
      StepKeeps(cur.value, OpOf(call, now));
    }
  }

  lemma StepGrows(w: World, p: nat, a: Action)
    requires p in w.at ==> Current(w.disk, w.tmp, w.at[p])
    ensures Grows(w, Do(w, p, a), p)
  {
    hide FileOp, VersionReadable;
    var next := Do(w, p, a);
    if next.log != w.log {
      var e := Event(p, w.at[p].call, if w.at[p].HasRead? && a.Compute? then a.now else if w.at[p].TmpFull? then w.at[p].now else 0);
      if e.call.Delete? {
        DeleteRemoves(w.disk, e.now);
      } else {
        ReadsKeep(e.call, w.disk, e.now);
      }
      assert GrowsBy(w, next, p, e);
    }
  }

  lemma DeleteRemoves(cur: Option<Rec>, now: int)
    ensures FileOp(Delete, cur, now) == (None, Answer(None, [], None))
  {
  }

  lemma StepReplays(w: World, next: World, p: nat)
    requires w.disk == Replay(w.log) && Grows(w, next, p)
    ensures next.disk == Replay(next.log)
  {
    hide FileOp;
    if next.log != w.log {
      var e :| GrowsBy(w, next, p, e);
      assert next.log[..|next.log| - 1] == w.log;
    }
  }

  /** A step moves the lock only between being free and being held by the one who steps. */
  lemma LockMoves(w: World, p: nat, a: Action)
    requires p in w.at ==> (Critical(w.at[p]) <==> w.lock == Some(p))
    ensures var next := Do(w, p, a);
            && (next.lock == w.lock || (w.lock in {None, Some(p)} && next.lock in {None, Some(p)}))
            && (p in next.at ==> (Critical(next.at[p]) <==> next.lock == Some(p)) || (p !in w.at && next.lock == w.lock && !Critical(next.at[p])))
            && (if p in w.at then p in next.at else next.lock == w.lock)
  {
    hide FileOp, VersionReadable, Aborts;
  }

  lemma StepExclusive(w: World, p: nat, a: Action)
    requires Exclusive(w.lock, w.at)
    ensures Exclusive(Do(w, p, a).lock, Do(w, p, a).at)
  {
    hide Do, Critical;
    LockMoves(w, p, a);
    var next := Do(w, p, a);
    forall q | q in next.at ensures Critical(next.at[q]) <==> next.lock == Some(q) {
      if q != p {
        OthersStay(w, p, a, q);
      }
    }
    if w.lock.Some? && w.lock.value != p {
      OthersStay(w, p, a, w.lock.value);
    }
  }

  /** Outside its critical section a call touches neither file. */
  lemma OutsideIsIdle(w: World, p: nat, a: Action)
    requires p !in w.at || !Critical(w.at[p])
    ensures Do(w, p, a).disk == w.disk && Do(w, p, a).tmp == w.tmp
  {
    hide FileOp;
  }

  /** A step moves only the call that takes it. */
  lemma OthersStay(w: World, p: nat, a: Action, q: nat)
    requires q != p
    ensures q in Do(w, p, a).at <==> q in w.at
    ensures q in w.at ==> Do(w, p, a).at[q] == w.at[q]
  {
    hide FileOp, VersionReadable, Aborts;
  }

  lemma SelfCurrent(w: World, p: nat, a: Action)
    requires p in w.at ==> Current(w.disk, w.tmp, w.at[p])
    ensures p in Do(w, p, a).at ==> Current(Do(w, p, a).disk, Do(w, p, a).tmp, Do(w, p, a).at[p])
  {
    hide FileOp, VersionReadable, Replay;
    if p in w.at && w.at[p].HasRead? && a.Compute? {
      ReadsKeep(w.at[p].call, w.at[p].cur, a.now);
    }
  }

  lemma StepCurrent(w: World, p: nat, a: Action)
    requires Exclusive(w.lock, w.at) && AllCurrent(w.disk, w.tmp, w.at)
    ensures AllCurrent(Do(w, p, a).disk, Do(w, p, a).tmp, Do(w, p, a).at)
  {
    hide FileOp, VersionReadable, Replay, Do;
    var next := Do(w, p, a);
    SelfCurrent(w, p, a);
    forall q | q in next.at && q != p ensures Current(next.disk, next.tmp, next.at[q]) {
      OthersStay(w, p, a, q);
      if Critical(w.at[q]) {
        OutsideIsIdle(w, p, a);
      }
    }
  }

  // ---- the log accounts for every call

  lemma EffectiveStays(log: seq<Event>, e: Event, p: nat, call: Call, ans: Answer, i: nat)
    requires Effective(log, p, call, ans, i)
    ensures Effective(log + [e], p, call, ans, i)
  {
    hide FileOp;
    assert (log + [e])[..i] == log[..i];
  }

  lemma AccountedStays(log: seq<Event>, e: Event, p: nat, l: Place)
    requires Accounted(log, p, l) && e.who != p
    ensures Accounted(log + [e], p, l)
  {
    hide Effective, FileOp;
    match l
    case Leaving(call, Answered(ans)) =>
      var i: nat :| Effective(log, p, call, ans, i);
      EffectiveStays(log, e, p, call, ans, i);
    case Done(call, Answered(ans)) =>
      var i: nat :| Effective(log, p, call, ans, i);
      EffectiveStays(log, e, p, call, ans, i);
    case Dead(_) =>
    case _ =>
      forall i | 0 <= i < |log + [e]| ensures (log + [e])[i].who != p {
      }
  }

  lemma EffectiveNow(log: seq<Event>, p: nat, call: Call, now: int, ans: Answer)
    requires FileOp(call, Replay(log), now).1 == ans
    ensures Effective(log + [Event(p, call, now)], p, call, ans, |log|)
  {
    hide FileOp;
    assert (log + [Event(p, call, now)])[..|log|] == log;
  }

  lemma SelfAccounted(w: World, p: nat, a: Action)
    requires p in w.at && Accounted(w.log, p, w.at[p]) && Current(w.disk, w.tmp, w.at[p]) && w.disk == Replay(w.log)
    ensures Accounted(Do(w, p, a).log, p, Do(w, p, a).at[p])
  {
    hide FileOp, VersionReadable, Replay, Effective, InLog;
    var next, l := Do(w, p, a), w.at[p];
    if l.HasRead? && a.Compute? {
      EffectiveNow(w.log, p, l.call, a.now, FileOp(l.call, w.disk, a.now).1);
    } else if l.TmpFull? && a.Publish? {
      EffectiveNow(w.log, p, l.call, l.now, l.answer);
    } else if l.Waiting? && a.Load? && l.call.Get? {
      EffectiveNow(w.log, p, Get, 0, FileOp(Get, w.disk, 0).1);
    } else if l.Locked? && a.Remove? && l.call.Delete? {
      DeleteRemoves(w.disk, 0);
      EffectiveNow(w.log, p, Delete, 0, Answer(None, [], None));
    } else if l.Locked? && a.Read? && !l.call.Delete? {
      ReadsKeep(l.call, w.disk, 0);
      EffectiveNow(w.log, p, l.call, 0, FileOp(l.call, w.disk, 0).1);
    }
  }

  lemma NewcomerAccounted(w: World, p: nat, a: Action)
    requires p !in w.at && OncePerCall(w.log, w.at)
    ensures p in Do(w, p, a).at ==> Accounted(Do(w, p, a).log, p, Do(w, p, a).at[p])
  {
    hide FileOp;
  }

  lemma StepAccounted(w: World, p: nat, a: Action)
    requires Inv(w)
    ensures AllAccounted(Do(w, p, a).log, Do(w, p, a).at)
  {
    hide FileOp, Do, Accounted, Exclusive, Replay, OncePerCall, Current;
    var next := Do(w, p, a);
    StepGrows(w, p, a);
    forall q | q in next.at ensures Accounted(next.log, q, next.at[q]) {
      if q == p {
        if p in w.at {
          SelfAccounted(w, p, a);
        } else {
          NewcomerAccounted(w, p, a);
        }
      } else {
        OthersStay(w, p, a, q);
        if next.log != w.log {
          var e :| GrowsBy(w, next, p, e);
          AccountedStays(w.log, e, q, w.at[q]);
        }
      }
    }
  }

  /** A call that takes effect had not done so before. */
  lemma EventIsFirst(w: World, p: nat, a: Action)
    requires Do(w, p, a).log != w.log
    ensures p in w.at && (Accounted(w.log, p, w.at[p]) ==> !InLog(w.log, p))
  {
    hide FileOp, InLog, Effective;
  }

  lemma StepOnce(w: World, p: nat, a: Action)
    requires Inv(w)
    ensures OncePerCall(Do(w, p, a).log, Do(w, p, a).at)
  {
    hide FileOp, Do, Accounted, Exclusive, Replay, Current, AllCurrent;
    var next := Do(w, p, a);
    StepGrows(w, p, a) by { hide AllCurrent; SelfIsCurrent(w, p); }
    Remain(w, p, a);
    if next.log != w.log {
      EventIsFirst(w, p, a);
      var e :| GrowsBy(w, next, p, e);
    }
  }

  lemma SelfIsCurrent(w: World, p: nat)
    requires AllCurrent(w.disk, w.tmp, w.at)
    ensures p in w.at ==> Current(w.disk, w.tmp, w.at[p])
  {
  }

  lemma Remain(w: World, p: nat, a: Action)
    ensures forall q :: q in w.at ==> q in Do(w, p, a).at
  {
    hide FileOp, VersionReadable, Aborts;
  }

  lemma StepKeepsInv(w: World, p: nat, a: Action)
    requires Inv(w)
    ensures Inv(Do(w, p, a))
  {
    hide FileOp, Do, Accounted, Exclusive, Replay, Current, AllAccounted, OncePerCall, Grows;
    StepGrows(w, p, a);
    StepReplays(w, Do(w, p, a), p);
    StepExclusive(w, p, a);
    StepCurrent(w, p, a);
    StepAccounted(w, p, a);
    StepOnce(w, p, a);
  }

  /** Every interleaving, with crashes anywhere: the file is what the logged calls make of it one after another, and
      every call that has answered is in the log once, with the answer it would have had alone. */
  lemma {:induction false} Linearizable(steps: seq<(nat, Action)>)
    ensures Inv(Exec(steps))
  {
    hide FileOp, Do, Inv;
    if steps == [] {
      EmptyInv();
    } else {
      var s := steps[|steps| - 1];
      Linearizable(steps[..|steps| - 1]);
      StepKeepsInv(Exec(steps[..|steps| - 1]), s.0, s.1);
    }
  }

  lemma EmptyInv()
    ensures Inv(EMPTY)
  {
  }

  // ---- what callers see

  lemma InvIsCurrent(w: World, p: nat)
    requires Inv(w)
    ensures p in w.at ==> Current(w.disk, w.tmp, w.at[p])
  {
    hide FileOp, Replay;
  }

  /** Between two consecutive worlds the record file is either untouched or replaced by exactly what one logged call,
      taken as a single atomic step, makes of it. */
  lemma PublishesOneTransition(steps: seq<(nat, Action)>, p: nat, a: Action)
    ensures Grows(Exec(steps), Exec(steps + [(p, a)]), p)
  {
    hide FileOp, Do, Grows, Inv, Current;
    Linearizable(steps);
    InvIsCurrent(Exec(steps), p);
    assert (steps + [(p, a)])[..|steps|] == steps;
    StepGrows(Exec(steps), p, a);
  }

  lemma {:induction false} LogGrows(a: seq<(nat, Action)>, b: seq<(nat, Action)>)
    ensures Exec(a).log <= Exec(a + b).log
  {
    hide FileOp, Do, Replay, Inv, Current;
    if b == [] {
      assert a + b == a;
    } else {
      var s, init := b[|b| - 1], b[..|b| - 1];
      LogGrows(a, init);
      assert (a + b)[..|a + b| - 1] == a + init;
      Linearizable(a + init);
      InvIsCurrent(Exec(a + init), s.0);
      StepGrows(Exec(a + init), s.0, s.1);
    }
  }

  /** The order of the log respects real time: a call that answered before another began took effect before it. */
  lemma RealTime(a: seq<(nat, Action)>, b: seq<(nat, Action)>, p: nat, q: nat, i: nat, j: nat)
    requires p in Exec(a).at && Exec(a).at[p].Done? && Exec(a).at[p].result.Answered? && q !in Exec(a).at
    requires i < |Exec(a + b).log| && Exec(a + b).log[i].who == p
    requires j < |Exec(a + b).log| && Exec(a + b).log[j].who == q
    ensures i < j
  {
    hide FileOp, Do, Replay, AtomicAnswer;
    Linearizable(a);
    Linearizable(a + b);
    LogGrows(a, b);
    var log, all := Exec(a).log, Exec(a + b).log;
    assert Accounted(log, p, Exec(a).at[p]);
    var k :| 0 <= k < |log| && log[k].who == p;
    assert all[k].who == p;
    assert k == i;
  }

  // ---- leases across processes

  ghost predicate Granted(log: seq<Event>, i: nat)
    requires i < |log|
  {
    log[i].call.Acquire? && AtomicAnswer(log, i).err == None
  }

  /** Nothing between i and j ends a lease, removes the record or replaces it. */
  ghost predicate Undisturbed(log: seq<Event>, i: nat, j: nat)
    requires j <= |log|
  {
    forall k :: i < k < j ==>
      && !log[k].call.Create? && !log[k].call.Delete?
      && (log[k].call.Release? || log[k].call.Complete? ==> AtomicAnswer(log, k).err != None)
  }

  function Expiry(log: seq<Event>, i: nat): int
    requires i < |log| && log[i].call.Acquire?
  {
    log[i].now + log[i].call.ttl
  }

  /** Every acquire between i and j comes before the expiry of i, or asks for a lease that is not over sooner. */
  ghost predicate Outlasts(log: seq<Event>, i: nat, j: nat)
    requires i < j <= |log| && log[i].call.Acquire?
  {
    forall k :: i < k < j && log[k].call.Acquire? ==> log[k].now < Expiry(log, i) || Expiry(log, k) >= Expiry(log, i)
  }

  /** From i to j the clock is never set back; or else no acquire between them asks for a lease already over. */
  ghost predicate Steady(log: seq<Event>, i: nat, j: nat)
    requires j < |log|
  {
    || (forall k, l :: i <= k <= l <= j ==> log[k].now <= log[l].now)
    || (forall k :: i < k < j && log[k].call.Acquire? ==> log[k].call.ttl >= 0)
  }

  lemma ReplayNext(log: seq<Event>, k: nat)
    requires k < |log|
    ensures Replay(log[..k + 1]) == FileOp(log[k].call, Replay(log[..k]), log[k].now).0
  {
    hide FileOp;
    assert log[..k + 1][..k] == log[..k];
  }

  /** The record as leased for at least until t. */
  ghost predicate LeasedUntil(cur: Option<Rec>, t: int) {
    cur.Some? && VersionReadable(cur.value.frozen.version) && cur.value.status == Resuming && cur.value.expires >= t
  }

  lemma GrantLeases(call: Call, cur: Option<Rec>, now: int)
    requires call.Acquire? && FileOp(call, cur, now).1.err == None
    ensures LeasedUntil(FileOp(call, cur, now).0, now + call.ttl)
  {
  }

  lemma LeaseLasts(call: Call, cur: Option<Rec>, now: int, t: int)
    requires LeasedUntil(cur, t) && !call.Create? && !call.Delete? && (call.Acquire? ==> now < t || now + call.ttl >= t)
    requires call.Release? || call.Complete? ==> FileOp(call, cur, now).1.err != None
    ensures LeasedUntil(FileOp(call, cur, now).0, t)
  {
    hide VersionReadable;
    if call.Submit? {
      SubmitKeepsLease(cur.value, call.ds, now);
      StepKeeps(cur.value, OpOf(call, now));
    }
  }

  lemma LeaseRefuses(call: Call, cur: Option<Rec>, now: int, t: int)
    requires LeasedUntil(cur, t) && call.Acquire? && now < t
    ensures FileOp(call, cur, now).1 == Refuse(LeaseHeld)
  {
    hide VersionReadable;
  }

  /** A granted lease stays in the file, at least until the time it was granted for, unless it is given up or the clock
      passes that time and an acquire then asks for a lease that is over sooner. */
  lemma {:induction false} StillLeased(log: seq<Event>, i: nat, j: nat)
    requires i < j <= |log| && Granted(log, i) && Undisturbed(log, i, j) && Outlasts(log, i, j)
    ensures LeasedUntil(Replay(log[..j]), Expiry(log, i))
    decreases j
  {
    hide FileOp, LeasedUntil, Replay;
    var k := j - 1;
    ReplayNext(log, k);
    if k == i {
      GrantLeases(log[i].call, Replay(log[..i]), log[i].now);
    } else {
      StillLeased(log, i, k);
      LeaseLasts(log[k].call, Replay(log[..k]), log[k].now, Expiry(log, i));
    }
  }

  /** Of the acquires that race for a record, from any processes, the first to be granted is the only one while its lease
      lives: every other is refused as held. */
  lemma OneWinner(steps: seq<(nat, Action)>, i: nat, j: nat)
    requires i < j < |Exec(steps).log| && Granted(Exec(steps).log, i) && Undisturbed(Exec(steps).log, i, j)
    requires Steady(Exec(steps).log, i, j)
    requires Exec(steps).log[j].call.Acquire? && Exec(steps).log[j].now < Expiry(Exec(steps).log, i)
    ensures AtomicAnswer(Exec(steps).log, j) == Refuse(LeaseHeld)
  {
    hide FileOp, LeasedUntil, Replay, Exec, Undisturbed;
    var log := Exec(steps).log;
    forall k | i < k < j && log[k].call.Acquire? ensures log[k].now < Expiry(log, i) || Expiry(log, k) >= Expiry(log, i) {
    }
    StillLeased(log, i, j);
    LeaseRefuses(log[j].call, Replay(log[..j]), log[j].now, Expiry(log, i));
  }

  /** A call answered over the lock is refused as held, or any other way, exactly as the log says. */
  lemma AnswersComeFromLog(steps: seq<(nat, Action)>, p: nat)
    requires p in Exec(steps).at && Exec(steps).at[p].Done? && Exec(steps).at[p].result.Answered?
    ensures exists i: nat :: Effective(Exec(steps).log, p, Exec(steps).at[p].call, Exec(steps).at[p].result.answer, i)
  {
    hide FileOp, Exec, Effective, Exclusive, AllCurrent, OncePerCall;
    Linearizable(steps);
    assert Accounted(Exec(steps).log, p, Exec(steps).at[p]);
  }

  // ---- nobody is stuck

  function Rank(l: Place): nat {
    match l
    case Waiting(_) => 8
    case Locked(_) => 7
    case HasRead(_, _) => 6
    case Writing(_, _, _, _) => 5
    case TmpOpen(_, _, _, _) => 4
    case TmpFull(_, _, _, _) => 3
    case Leaving(_, _) => 2
    case _ => 0
  }

  /** Whatever crashed before, a waiting call can take the lock now, or its live holder has a step that brings it closer
      to giving it back. */
  lemma NeverWedged(steps: seq<(nat, Action)>, p: nat)
    requires p in Exec(steps).at && Exec(steps).at[p].Waiting? && !Exec(steps).at[p].call.Get?
    ensures exists q: nat, a: Action :: q in Exec(steps).at && !a.Crash? && !a.GiveUp?
              && q in Do(Exec(steps), q, a).at && Rank(Do(Exec(steps), q, a).at[q]) < Rank(Exec(steps).at[q])
  {
    hide FileOp, Exec, Replay, AllAccounted, OncePerCall, VersionReadable;
    Linearizable(steps);
    var w := Exec(steps);
    var q, a := p, Lock;
    if w.lock.Some? {
      q := w.lock.value;
      assert Critical(w.at[q]);
      a := match w.at[q]
           case Locked(call) => if call.Delete? then Remove else Read
           case HasRead(_, _) => Compute(0)
           case Writing(_, _, _, _) => OpenTmp
           case TmpOpen(_, _, _, _) => FillTmp
           case TmpFull(_, _, _, _) => Publish
           case _ => Unlock;
      SelfIsCurrent(w, q);
    }
    assert Rank(Do(w, q, a).at[q]) < Rank(w.at[q]);
  }

  lemma ExecOne(steps: seq<(nat, Action)>, p: nat, a: Action)
    ensures Exec(steps + [(p, a)]) == Do(Exec(steps), p, a)
  {
    hide Do;
    assert (steps + [(p, a)])[..|steps|] == steps;
  }

  ghost predicate OnlyWorks(more: seq<(nat, Action)>, p: nat) {
    forall i :: 0 <= i < |more| ==> more[i].0 == p && !more[i].1.GiveUp? && !more[i].1.WriteFails? && !more[i].1.Crash?
  }

  /** From the computed outcome to the renamed file. */
  lemma WritesAlone(steps: seq<(nat, Action)>, p: nat) returns (more: seq<(nat, Action)>)
    requires p in Exec(steps).at && Exec(steps).at[p].Writing?
    ensures OnlyWorks(more, p)
    ensures var w, after := Exec(steps), Exec(steps + more);
            && after.at == w.at[p := Leaving(w.at[p].call, Answered(w.at[p].answer))]
            && after.disk == Some(w.at[p].next) && after.lock == w.lock
  {
    hide Exec, FileOp, VersionReadable;
    ExecOne(steps, p, OpenTmp);
    var one := steps + [(p, OpenTmp)];
    ExecOne(one, p, FillTmp);
    var two := one + [(p, FillTmp)];
    ExecOne(two, p, Publish);
    more := [(p, OpenTmp), (p, FillTmp), (p, Publish)];
    assert steps + more == two + [(p, Publish)];
  }

  lemma ComputesAlone(w: World, p: nat, now: int)
    requires p in w.at && w.at[p].HasRead? && w.at[p].cur == w.disk
    ensures var call, after := w.at[p].call, Do(w, p, Compute(now)); var (next, a) := FileOp(call, w.disk, now);
            && after.disk == w.disk && after.lock == w.lock
            && after.at == w.at[p := if Aborts(a) || next.None? then Leaving(call, Answered(a)) else Writing(call, now, next.value, a)]
  {
    hide FileOp, VersionReadable, Aborts;
  }

  lemma LocksAlone(w: World, p: nat, now: int)
    requires p in w.at && w.at[p].Waiting? && !w.at[p].call.Get? && w.lock.None?
    ensures var call := w.at[p].call; var next := Do(w, p, Lock); var after := Do(next, p, if call.Delete? then Remove else Read);
            && after.lock == Some(p)
            && if call.Delete? || (w.disk.Some? && !VersionReadable(w.disk.value.frozen.version)) then
                 && after.at == w.at[p := Leaving(call, Answered(FileOp(call, w.disk, now).1))]
                 && after.disk == FileOp(call, w.disk, now).0
               else after.at == w.at[p := HasRead(call, w.disk)] && after.disk == w.disk
  {
    hide VersionReadable, FileOp;
    if w.at[p].call.Delete? {
      DeleteRemoves(w.disk, now);
    } else {
      ReadsKeep(w.at[p].call, w.disk, now);
    }
  }

  /** Up to the point where only the lock is left to give back. */
  lemma WorksAlone(steps: seq<(nat, Action)>, p: nat, now: int) returns (more: seq<(nat, Action)>)
    requires p in Exec(steps).at && Exec(steps).at[p].Waiting? && !Exec(steps).at[p].call.Get? && Exec(steps).lock.None?
    ensures OnlyWorks(more, p)
    ensures var w, after := Exec(steps), Exec(steps + more); var (next, a) := FileOp(w.at[p].call, w.disk, now);
            after.at == w.at[p := Leaving(w.at[p].call, Answered(a))] && after.disk == next && after.lock == Some(p)
  {
    hide Exec, Do, FileOp, VersionReadable, Aborts;
    var w := Exec(steps);
    var call := w.at[p].call;
    var how := if call.Delete? then Remove else Read;
    ExecOne(steps, p, Lock);
    var one := steps + [(p, Lock)];
    ExecOne(one, p, how);
    LocksAlone(w, p, now);
    var two := one + [(p, how)];
    more := [(p, Lock), (p, how)];
    assert steps + more == two;
    if Exec(two).at[p].HasRead? {
      ComputesAlone(Exec(two), p, now);
      ExecOne(two, p, Compute(now));
      var three := two + [(p, Compute(now))];
      more := more + [(p, Compute(now))];
      assert steps + more == three;
      if Exec(three).at[p].Writing? {
        var rest := WritesAlone(three, p);
        more := more + rest;
        assert steps + more == three + rest;
      } else {
        ReadsKeep(call, w.disk, now);
      }
    }
  }

  /** A call that gets the free lock and is left alone, with nothing failing, answers and leaves behind exactly what the
      atomic call would at that moment, and gives the lock back; reading alone does so whoever has the lock. */
  lemma RunsAlone(steps: seq<(nat, Action)>, p: nat, now: int) returns (more: seq<(nat, Action)>)
    requires p in Exec(steps).at && Exec(steps).at[p].Waiting?
    requires Exec(steps).at[p].call.Get? || Exec(steps).lock.None?
    ensures OnlyWorks(more, p)
    ensures var w, after := Exec(steps), Exec(steps + more); var (next, a) := FileOp(w.at[p].call, w.disk, now);
            p in after.at && after.at[p] == Done(w.at[p].call, Answered(a)) && after.disk == next && after.lock == w.lock
  {
    hide Exec, FileOp, VersionReadable, Aborts;
    var call := Exec(steps).at[p].call;
    if call.Get? {
      more := [(p, Load)];
      ExecOne(steps, p, Load);
      ReadsKeep(call, Exec(steps).disk, now);
      ReadsAnyTime(Exec(steps).disk, now);
    } else {
      more := WorksAlone(steps, p, now);
      var all := steps + more;
      ExecOne(all, p, Unlock);
      more := more + [(p, Unlock)];
      assert steps + more == all + [(p, Unlock)];
    }
  }

  lemma ReadsAnyTime(cur: Option<Rec>, now: int)
    ensures FileOp(Get, cur, now) == FileOp(Get, cur, 0)
  {
  }
}
