/** Resumers of one interrupt, interleaved over its store one call at a time. A resumer whose policy has drifted from the
    frozen one replaces the record by a successor instead of running the frozen batch. */
module Resume {
  import opened Interrupt
  import Records = Record

  /** What a resumer's policy says of the frozen batch. */
  datatype Verdict = RunIt | Refuse | Replace(pending: seq<string>, fingerprint: string)

  /** Where a resumer stands; those from LeasedToRun on hold, or have held, a lease under a token of their own. */
  datatype Place =
    | Started
    | HasRecord(status: Status)
    | NoSuccessor
    | WillRun
    | WillReplace(pending: seq<string>, fingerprint: string)
    | WillFinish
    | LeasedToRun(owner: string, expires: int)
    | Cleared(owner: string, expires: int)
    | Running(owner: string, expires: int)
    | LeasedToReplace(owner: string, expires: int, pending: seq<string>, fingerprint: string)
    | Vacant(owner: string, expires: int, pending: seq<string>, fingerprint: string)
    | Created(owner: string, expires: int)
    | Finishing(owner: string, expires: int)
    | Quitting(owner: string, expires: int)
    | Out

  /** late: a successor existed when the resumer started. A crashed resumer stays where it was. */
  datatype Resumer = Resumer(late: bool, alive: bool, at: Place)

  datatype World = World(rec: Rec, succs: seq<Rec>, now: int, resumers: map<nat, Resumer>, used: set<string>, ran: set<nat>)

  datatype Move = Start | Read | Submit(ds: seq<Decision>) | Lookup | Classify(verdict: Verdict) | Lease(owner: string, ttl: int)
                | CheckTools(ok: bool) | RunBatch | LookAgain | CreateSuccessor(id: string) | Fail | Complete | Release | Crash

  /** Time passes, someone submits decisions, someone uses a successor, or a resumer takes its next step. */
  datatype Action = Tick(d: nat) | Decide(ds: seq<Decision>) | OnSuccessor(i: nat, op: Op) | By(p: nat, move: Move)

  predicate HasLease(l: Place) {
    l.LeasedToRun? || l.Cleared? || l.Running? || l.LeasedToReplace? || l.Vacant? || l.Created? || l.Finishing? || l.Quitting?
  }

  function Put(w: World, p: nat, l: Place): World
    requires p in w.resumers
  {
    w.(resumers := w.resumers[p := w.resumers[p].(at := l)])
  }

  /** A copy of the frozen run without decisions or lease, pending what the new policy flags. */
  function Replacement(rec: Rec, pending: seq<string>, fingerprint: string): Rec {
    Rec(rec.frozen.(fingerprint := fingerprint, supersedes := rec.frozen.id), pending, map[], Status.Pending, 0, NO_OWNER, NO_TIME, 0)
  }

  ghost function Do(w: World, a: Action): World {
    match a
    case Tick(d) => w.(now := w.now + d)
    case Decide(ds) => w.(rec := Step(w.rec, SubmitOp(ds, w.now)).0)
    case OnSuccessor(i, op) => if i < |w.succs| then w.(succs := w.succs[i := Step(w.succs[i], op).0]) else w
    case By(p, m) =>
      if p !in w.resumers then
        if m.Start? then w.(resumers := w.resumers[p := Resumer(w.succs != [], true, Started)]) else w
      else if !w.resumers[p].alive then w
      else if m.Crash? then w.(resumers := w.resumers[p := w.resumers[p].(alive := false)])
      else if HasLease(w.resumers[p].at) then DoLeased(w, p, m)
      else DoFree(w, p, m)
  }

  /** Before the lease. */
  ghost function DoFree(w: World, p: nat, m: Move): World
    requires p in w.resumers
  {
    var l := w.resumers[p].at;
    if l.Started? && m.Read? then Put(w, p, HasRecord(w.rec.status))
    else if l.HasRecord? && m.Submit? then
      var (next, a) := Step(w.rec, SubmitOp(m.ds, w.now));
      Put(w, p, if a.err.Some? then Out else HasRecord(next.status)).(rec := next)
    else if l.HasRecord? && m.Lookup? then
      Put(w, p, if l.status == Status.Pending then Out
                else if w.succs != [] then if l.status == Completed then Out else WillFinish
                else if l.status == Completed then Out else NoSuccessor)
    else if l.NoSuccessor? && m.Classify? then
      Put(w, p, match m.verdict
                case RunIt => WillRun
                case Refuse => Out
                case Replace(pending, fp) => if pending == [] then Out else WillReplace(pending, fp))
    else if (l.WillRun? || l.WillReplace? || l.WillFinish?) && m.Lease? && m.owner !in w.used then
      var (next, a) := Step(w.rec, AcquireOp(m.owner, m.ttl, w.now));
      Put(w, p, if a.err.Some? then Out
                else if l.WillRun? then LeasedToRun(m.owner, next.expires)
                else if l.WillReplace? then LeasedToReplace(m.owner, next.expires, l.pending, l.fingerprint)
                else Finishing(m.owner, next.expires)).(rec := next, used := w.used + {m.owner})
    else w
  }

  /** Under the lease. */
  ghost function DoLeased(w: World, p: nat, m: Move): World
    requires p in w.resumers && HasLease(w.resumers[p].at)
  {
    var l := w.resumers[p].at;
    if l.LeasedToRun? && m.CheckTools? then Put(w, p, if m.ok then Cleared(l.owner, l.expires) else Quitting(l.owner, l.expires))
    else if l.Cleared? && m.RunBatch? then Put(w, p, Running(l.owner, l.expires)).(ran := w.ran + {p})
    else if l.LeasedToReplace? && m.LookAgain? then
      Put(w, p, if w.succs != [] then Finishing(l.owner, l.expires) else Vacant(l.owner, l.expires, l.pending, l.fingerprint))
    else if l.Vacant? && m.CreateSuccessor? && Records.Creatable(Replacement(w.rec, l.pending, l.fingerprint)) then
      Put(w, p, Created(l.owner, l.expires)).(succs := w.succs + [Records.Created(Replacement(w.rec, l.pending, l.fingerprint), m.id, w.now)])
    else if (l.LeasedToReplace? || l.Vacant?) && m.Fail? then Put(w, p, Quitting(l.owner, l.expires))
    else if (l.Running? || l.Created? || l.Finishing?) && m.Complete? then
      Put(w, p, Out).(rec := Step(w.rec, CompleteOp(l.owner, w.now)).0)
    else if (l.Running? || l.Quitting?) && m.Release? then Put(w, p, Out).(rec := Step(w.rec, ReleaseOp(l.owner, w.now)).0)
    else w
  }

  function Begin(r: Rec, now: int): World {
    World(r, [], now, map[], {}, {})
  }

  ghost function Exec(r: Rec, now: int, acts: seq<Action>): World {
    if acts == [] then Begin(r, now) else Do(Exec(r, now, acts[..|acts| - 1]), acts[|acts| - 1])
  }

  // ---- leases

  /** A resumer's lease runs. */
  predicate Live(l: Place, now: int) {
    HasLease(l) && now < l.expires
  }

  /** While a resumer's lease runs, it is the record's. */
  ghost predicate Holds(rec: Rec, l: Place, now: int) {
    Live(l, now) ==> rec.status == Resuming && rec.owner == l.owner && rec.expires == l.expires
  }

  ghost predicate AllHold(w: World) {
    forall p :: p in w.resumers ==> Holds(w.rec, w.resumers[p].at, w.now)
  }

  /** No two resumers share a token. */
  ghost predicate OwnTokens(w: World) {
    && (forall p :: p in w.resumers && HasLease(w.resumers[p].at) ==> w.resumers[p].at.owner in w.used)
    && (forall p, q :: p in w.resumers && q in w.resumers && p != q && HasLease(w.resumers[p].at) && HasLease(w.resumers[q].at) ==>
          w.resumers[p].at.owner != w.resumers[q].at.owner)
  }

  ghost predicate Leases(w: World) {
    AllHold(w) && OwnTokens(w)
  }

  /** At most one resumer's lease runs at a time. */
  lemma OneLive(w: World, p: nat, q: nat)
    requires Leases(w) && p in w.resumers && q in w.resumers
    requires Live(w.resumers[p].at, w.now) && Live(w.resumers[q].at, w.now)
    ensures p == q
  {
    assert Holds(w.rec, w.resumers[p].at, w.now) && Holds(w.rec, w.resumers[q].at, w.now);
  }

  lemma OthersStay(w: World, a: Action, q: nat)
    requires a.By? ==> a.p != q
    ensures q in Do(w, a).resumers <==> q in w.resumers
    ensures q in w.resumers ==> Do(w, a).resumers[q] == w.resumers[q]
  {
    hide Step, Records.Creatable;
  }

  lemma OtherHolds(w: World, a: Action, q: nat)
    requires Leases(w) && q in w.resumers && (a.By? ==> a.p != q)
    ensures Holds(Do(w, a).rec, w.resumers[q].at, Do(w, a).now)
  {
    hide Records.Creatable;
    assert Holds(w.rec, w.resumers[q].at, w.now);
  }

  lemma FreeHolds(w: World, p: nat, m: Move)
    requires p in w.resumers && !HasLease(w.resumers[p].at)
    ensures Holds(DoFree(w, p, m).rec, DoFree(w, p, m).resumers[p].at, DoFree(w, p, m).now)
  {
    hide Interrupt.Submit;
  }

  lemma LeasedHolds(w: World, p: nat, m: Move)
    requires p in w.resumers && HasLease(w.resumers[p].at) && Holds(w.rec, w.resumers[p].at, w.now)
    ensures p in DoLeased(w, p, m).resumers
    ensures Holds(DoLeased(w, p, m).rec, DoLeased(w, p, m).resumers[p].at, DoLeased(w, p, m).now)
  {
    hide Records.Creatable, Step;
  }

  lemma SelfHolds(w: World, p: nat, m: Move)
    requires AllHold(w) && p in Do(w, By(p, m)).resumers
    ensures Holds(Do(w, By(p, m)).rec, Do(w, By(p, m)).resumers[p].at, Do(w, By(p, m)).now)
  {
    hide DoFree, DoLeased;
    if p in w.resumers {
      if HasLease(w.resumers[p].at) {
        LeasedHolds(w, p, m);
      } else {
        FreeHolds(w, p, m);
      }
    }
  }

  lemma StepHolds(w: World, a: Action)
    requires Leases(w)
    ensures AllHold(Do(w, a))
  {
    hide OwnTokens, Holds, Do;
    var next := Do(w, a);
    forall q | q in next.resumers ensures Holds(next.rec, next.resumers[q].at, next.now) {
      if a.By? && a.p == q {
        SelfHolds(w, q, a.move);
      } else {
        OthersStay(w, a, q);
        OtherHolds(w, a, q);
      }
    }
  }

  lemma StepTokens(w: World, a: Action)
    requires OwnTokens(w)
    ensures OwnTokens(Do(w, a))
  {
    hide Step, Records.Creatable, OwnTokens;
    var next := Do(w, a);
    if a.By? {
      TokenKept(w, a.p, a.move);
    }
    forall q | q in w.resumers && (a.By? ==> a.p != q) ensures q in next.resumers && next.resumers[q] == w.resumers[q] {
      OthersStay(w, a, q);
    }
    forall q | q in next.resumers && (a.By? ==> a.p != q) ensures q in w.resumers {
      OthersStay(w, a, q);
    }
    Retold(w, next, a);
  }

  /** The mover's token is the one it had, or was not in use. */
  ghost predicate TokenOk(w: World, next: World, p: nat) {
    && w.used <= next.used
    && (p in next.resumers && HasLease(next.resumers[p].at) ==>
          && next.resumers[p].at.owner in next.used
          && (next.resumers[p].at.owner !in w.used
              || (p in w.resumers && HasLease(w.resumers[p].at) && w.resumers[p].at.owner == next.resumers[p].at.owner)))
  }

  lemma TokenKept(w: World, p: nat, m: Move)
    requires OwnTokens(w)
    ensures TokenOk(w, Do(w, By(p, m)), p)
  {
    hide Step, Records.Creatable;
  }

  lemma Retold(w: World, next: World, a: Action)
    requires OwnTokens(w)
    requires if a.By? then TokenOk(w, next, a.p) else next.used == w.used
    requires forall q :: q in w.resumers && (a.By? ==> a.p != q) ==> q in next.resumers && next.resumers[q] == w.resumers[q]
    requires forall q :: q in next.resumers && (a.By? ==> a.p != q) ==> q in w.resumers
    ensures OwnTokens(next)
  {
  }

  // ---- at most one successor

  /** Whoever found no successor under a running lease is right. */
  ghost predicate VacantIsRight(w: World) {
    forall p :: p in w.resumers && w.resumers[p].at.Vacant? && Live(w.resumers[p].at, w.now) ==> w.succs == []
  }

  /** The step, if it creates a successor, does so before the creator's lease expires. */
  ghost predicate TimelyStep(w: World, a: Action) {
    a.By? && a.move.CreateSuccessor? && a.p in w.resumers && w.resumers[a.p].at.Vacant? ==> Live(w.resumers[a.p].at, w.now)
  }

  ghost predicate Timely(r: Rec, now: int, acts: seq<Action>) {
    forall k :: 0 <= k < |acts| ==> TimelyStep(Exec(r, now, acts[..k]), acts[k])
  }

  /** Only a creation adds a successor; others only use one. */
  lemma CreatesOnly(w: World, a: Action)
    ensures |Do(w, a).succs| == |w.succs|
            || (a.By? && a.move.CreateSuccessor? && a.p in w.resumers && w.resumers[a.p].at.Vacant?
                && |Do(w, a).succs| == |w.succs| + 1 && Do(w, a).resumers[a.p].at.Created?
                && Do(w, a).now == w.now && Do(w, a).rec == w.rec)
  {
    hide Step, Records.Creatable;
  }

  lemma BecomesVacant(w: World, p: nat, m: Move)
    requires p in Do(w, By(p, m)).resumers && Do(w, By(p, m)).resumers[p].at.Vacant?
    ensures p in w.resumers && Do(w, By(p, m)).now == w.now && Do(w, By(p, m)).succs == w.succs
    ensures w.resumers[p].at == Do(w, By(p, m)).resumers[p].at || w.succs == []
  {
    hide Step, Records.Creatable;
  }

  lemma StepVacant(w: World, a: Action)
    requires Leases(w) && VacantIsRight(w) && TimelyStep(w, a)
    ensures VacantIsRight(Do(w, a))
  {
    hide Step, Do, Leases;
    var next := Do(w, a);
    CreatesOnly(w, a);
    NowGrows(w, a);
    forall q | q in next.resumers && next.resumers[q].at.Vacant? && Live(next.resumers[q].at, next.now) ensures next.succs == [] {
      if a.By? && a.p == q {
        BecomesVacant(w, q, a.move);
      } else {
        OthersStay(w, a, q);
        if |next.succs| > |w.succs| {
          OneLive(w, a.p, q);
        }
      }
    }
  }

  lemma NowGrows(w: World, a: Action)
    ensures Do(w, a).now >= w.now
  {
    hide Step, Records.Creatable;
  }

  lemma StepOne(w: World, a: Action)
    requires |w.succs| <= 1 && VacantIsRight(w) && TimelyStep(w, a)
    ensures |Do(w, a).succs| <= 1
  {
    hide Step, Do;
    CreatesOnly(w, a);
  }

  lemma {:induction false} LeasesAlways(r: Rec, now: int, acts: seq<Action>)
    ensures Leases(Exec(r, now, acts))
  {
    hide Do, AllHold, OwnTokens;
    if acts == [] {
      AtFirst(r, now);
    } else {
      var w := Exec(r, now, acts[..|acts| - 1]);
      LeasesAlways(r, now, acts[..|acts| - 1]);
      StepHolds(w, acts[|acts| - 1]);
      StepTokens(w, acts[|acts| - 1]);
    }
  }

  lemma AtFirst(r: Rec, now: int)
    ensures Leases(Begin(r, now)) && VacantIsRight(Begin(r, now))
  {
  }

  /** If every successor is created before its creator's lease expires there is at most one, in any interleaving. */
  lemma {:induction false} AtMostOneSuccessor(r: Rec, now: int, acts: seq<Action>)
    requires Timely(r, now, acts)
    ensures |Exec(r, now, acts).succs| <= 1 && VacantIsRight(Exec(r, now, acts))
  {
    hide Do, Leases, VacantIsRight, TimelyStep;
    if acts == [] {
      AtFirst(r, now);
    } else {
      var init, a := acts[..|acts| - 1], acts[|acts| - 1];
      var w := Exec(r, now, init);
      EarlierTimely(r, now, acts);
      AtMostOneSuccessor(r, now, init);
      LeasesAlways(r, now, init);
      StepOne(w, a);
      StepVacant(w, a);
    }
  }

  lemma EarlierTimely(r: Rec, now: int, acts: seq<Action>)
    requires Timely(r, now, acts) && acts != []
    ensures Timely(r, now, acts[..|acts| - 1])
    ensures TimelyStep(Exec(r, now, acts[..|acts| - 1]), acts[|acts| - 1])
  {
    hide Do, TimelyStep, Exec;
    var init := acts[..|acts| - 1];
    forall k | 0 <= k < |init| ensures TimelyStep(Exec(r, now, init[..k]), init[k]) {
      assert init[..k] == acts[..k] && init[k] == acts[k];
      assert TimelyStep(Exec(r, now, acts[..k]), acts[k]);
    }
  }

  // ---- the frozen batch after a successor

  /** A late starter is never on the way to running the frozen batch, and has not run it. */
  ghost predicate LateStaysOut(w: World) {
    forall p :: p in w.resumers && w.resumers[p].late ==> Harmless(w, p)
  }

  predicate KeepsOff(l: Place) {
    l.Started? || l.HasRecord? || l.WillFinish? || l.Finishing? || l.Out?
  }

  ghost predicate Harmless(w: World, p: nat)
    requires p in w.resumers
  {
    && KeepsOff(w.resumers[p].at)
    && p !in w.ran && w.succs != []
  }

  lemma HarmlessSelf(w: World, p: nat, m: Move)
    requires p in w.resumers && Harmless(w, p)
    ensures p in Do(w, By(p, m)).resumers && Harmless(Do(w, By(p, m)), p) && Do(w, By(p, m)).resumers[p].late == w.resumers[p].late
  {
    hide Step, Records.Creatable;
  }

  lemma HarmlessOther(w: World, a: Action, q: nat)
    requires q in w.resumers && Harmless(w, q) && (a.By? ==> a.p != q)
    ensures q in Do(w, a).resumers && Harmless(Do(w, a), q)
  {
    hide Step, Records.Creatable;
  }

  lemma Newcomer(w: World, p: nat, m: Move)
    requires p !in w.resumers && p in Do(w, By(p, m)).resumers && p !in w.ran
    ensures Do(w, By(p, m)).resumers[p].late ==> Harmless(Do(w, By(p, m)), p)
  {
    hide Step, Records.Creatable;
  }

  lemma SameLate(w: World, p: nat, m: Move)
    requires p in w.resumers
    ensures p in Do(w, By(p, m)).resumers && Do(w, By(p, m)).resumers[p].late == w.resumers[p].late
  {
    hide Step, Records.Creatable;
  }

  ghost predicate RanAreKnown(w: World) {
    forall p :: p in w.ran ==> p in w.resumers
  }

  lemma StepLate(w: World, a: Action)
    requires LateStaysOut(w) && RanAreKnown(w)
    ensures LateStaysOut(Do(w, a))
  {
    hide Step, Do, Harmless;
    var next := Do(w, a);
    forall q | q in next.resumers && next.resumers[q].late ensures Harmless(next, q) {
      if a.By? && a.p == q {
        if q in w.resumers {
          SameLate(w, q, a.move);
          HarmlessSelf(w, q, a.move);
        } else {
          Newcomer(w, q, a.move);
        }
      } else {
        OthersStay(w, a, q);
        HarmlessOther(w, a, q);
      }
    }
  }

  lemma StepKnown(w: World, a: Action)
    requires RanAreKnown(w)
    ensures RanAreKnown(Do(w, a))
  {
    hide Step, Records.Creatable;
  }

  lemma {:induction false} LateAlways(r: Rec, now: int, acts: seq<Action>)
    ensures LateStaysOut(Exec(r, now, acts)) && RanAreKnown(Exec(r, now, acts))
  {
    hide Do, LateStaysOut, RanAreKnown;
    if acts == [] {
      FirstLate(r, now);
    } else {
      var init := acts[..|acts| - 1];
      LateAlways(r, now, init);
      StepLate(Exec(r, now, init), acts[|acts| - 1]);
      StepKnown(Exec(r, now, init), acts[|acts| - 1]);
    }
  }

  lemma FirstLate(r: Rec, now: int)
    ensures LateStaysOut(Begin(r, now)) && RanAreKnown(Begin(r, now))
  {
  }

  lemma ExecNext(r: Rec, now: int, acts: seq<Action>, more: seq<Action>)
    requires more != []
    ensures Exec(r, now, acts + more) == Do(Exec(r, now, acts + more[..|more| - 1]), more[|more| - 1])
  {
    hide Do;
    assert (acts + more)[..|acts + more| - 1] == acts + more[..|more| - 1];
  }

  lemma SuccessorsStay(w: World, a: Action)
    ensures |w.succs| <= |Do(w, a).succs|
  {
    hide Step, Records.Creatable;
  }

  lemma {:induction false} StartsLate(r: Rec, now: int, acts: seq<Action>, more: seq<Action>, p: nat)
    requires Exec(r, now, acts).succs != [] && p !in Exec(r, now, acts).resumers
    ensures Exec(r, now, acts + more).succs != []
    ensures p in Exec(r, now, acts + more).resumers ==> Exec(r, now, acts + more).resumers[p].late
    decreases |more|
  {
    hide Do, Exec;
    if more == [] {
      assert acts + more == acts;
    } else {
      var init, a := more[..|more| - 1], more[|more| - 1];
      var w := Exec(r, now, acts + init);
      StartsLate(r, now, acts, init, p);
      ExecNext(r, now, acts, more);
      SuccessorsStay(w, a);
      LateStart(w, a, p);
    }
  }

  lemma LateStart(w: World, a: Action, p: nat)
    requires w.succs != [] && (p in w.resumers ==> w.resumers[p].late)
    ensures p in Do(w, a).resumers ==> Do(w, a).resumers[p].late
  {
    hide Step, Records.Creatable;
  }

  /** A resumer that starts after a successor exists never runs the superseded batch's handlers, in any interleaving. */
  lemma NeverRunsAfterSuccessor(r: Rec, now: int, acts: seq<Action>, more: seq<Action>, p: nat)
    requires Exec(r, now, acts).succs != [] && p !in Exec(r, now, acts).resumers
    ensures p !in Exec(r, now, acts + more).ran
  {
    hide Do, Exec;
    StartsLate(r, now, acts, more, p);
    LateAlways(r, now, acts + more);
  }

  // ---- successors are born undecided

  /** A step that adds a successor adds one that is born pending, undecided and unleased, and carries the frozen batch. */
  lemma SuccessorIsBorn(w: World, a: Action)
    requires |Do(w, a).succs| > |w.succs|
    ensures var s := Do(w, a).succs[|w.succs|];
            && Born(s) && Records.Creatable(s) && s.owner == NO_OWNER && s.revision == 1
            && s.frozen.supersedes == w.rec.frozen.id && s.frozen.calls == w.rec.frozen.calls
            && s.frozen.session == w.rec.frozen.session && s.frozen.agent == w.rec.frozen.agent
  {
    hide Step;
  }

  /** Pending exactly while one of its own pending calls is undecided. */
  ghost predicate AllConsistent(succs: seq<Rec>) {
    forall i :: 0 <= i < |succs| ==> Consistent(succs[i]) && succs[i].pending != []
  }

  lemma SuccessorsConsistent(w: World, a: Action)
    requires AllConsistent(w.succs)
    ensures AllConsistent(Do(w, a).succs)
  {
    hide Step, Consistent;
    var next := Do(w, a);
    forall i | 0 <= i < |next.succs| ensures Consistent(next.succs[i]) && next.succs[i].pending != [] {
      if i < |w.succs| {
        SuccessorUse(w, a, i);
      } else {
        CreatesOnly(w, a);
        SuccessorIsBorn(w, a);
        BornIsConsistent(next.succs[i]);
      }
    }
  }

  lemma SuccessorUse(w: World, a: Action, i: nat)
    requires i < |w.succs| && Consistent(w.succs[i])
    ensures i < |Do(w, a).succs| && Consistent(Do(w, a).succs[i]) && Do(w, a).succs[i].pending == w.succs[i].pending
  {
    hide Step, Consistent, Records.Creatable;
    if a.OnSuccessor? {
      StepKeeps(w.succs[i], a.op);
    }
  }

  /** Whatever decisions the old record had, none rides along: a successor leaves Pending only by decisions of its own. */
  lemma {:induction false} SuccessorsStartOver(r: Rec, now: int, acts: seq<Action>)
    ensures AllConsistent(Exec(r, now, acts).succs)
  {
    hide Do, Consistent;
    if acts != [] {
      var init := acts[..|acts| - 1];
      SuccessorsStartOver(r, now, init);
      SuccessorsConsistent(Exec(r, now, init), acts[|acts| - 1]);
    }
  }

  // ---- while creators are prompt, no successor stands beside a frozen batch about to run

  /** No lease runs out between its holder's creating the successor and completing the old record. */
  ghost predicate PromptWorld(w: World) {
    forall q :: q in w.resumers && w.resumers[q].at.Created? ==> Live(w.resumers[q].at, w.now)
  }

  ghost predicate Prompt(r: Rec, now: int, acts: seq<Action>) {
    forall k :: 0 <= k <= |acts| ==> PromptWorld(Exec(r, now, acts[..k]))
  }

  /** A successor's creator is still at it, or the old record is completed. */
  ghost predicate Explained(w: World) {
    w.succs != [] ==> w.rec.status == Completed || exists q :: q in w.resumers && w.resumers[q].at.Created?
  }

  lemma CompletedStays(w: World, a: Action)
    requires w.rec.status == Completed
    ensures Do(w, a).rec.status == Completed
  {
    hide Records.Creatable;
  }

  lemma CreatorMoves(w: World, q: nat, m: Move)
    requires q in w.resumers && w.resumers[q].at.Created? && Live(w.resumers[q].at, w.now) && Holds(w.rec, w.resumers[q].at, w.now)
    ensures q in Do(w, By(q, m)).resumers
    ensures Do(w, By(q, m)).resumers[q].at.Created? || Do(w, By(q, m)).rec.status == Completed
  {
    hide Records.Creatable, Interrupt.Submit;
  }

  lemma StepExplained(w: World, a: Action)
    requires Leases(w) && PromptWorld(w) && Explained(w)
    ensures Explained(Do(w, a))
  {
    hide Step, Do, OwnTokens;
    if w.succs == [] {
      CreatesOnly(w, a);
      if Do(w, a).succs != [] {
        assert a.p in Do(w, a).resumers by { OthersRemain(w, a, a.p); }
      }
    } else if w.rec.status == Completed {
      CompletedStays(w, a);
    } else {
      var q :| q in w.resumers && w.resumers[q].at.Created?;
      assert Holds(w.rec, w.resumers[q].at, w.now);
      if a.By? && a.p == q {
        CreatorMoves(w, q, a.move);
      } else {
        OthersStay(w, a, q);
      }
    }
  }

  lemma OthersRemain(w: World, a: Action, q: nat)
    requires q in w.resumers
    ensures q in Do(w, a).resumers
  {
    hide Step, Records.Creatable;
  }

  lemma FirstExplained(r: Rec, now: int)
    ensures Explained(Begin(r, now))
  {
  }

  lemma {:induction false} ExplainedAlways(r: Rec, now: int, acts: seq<Action>)
    requires Prompt(r, now, acts)
    ensures Explained(Exec(r, now, acts))
  {
    hide Do, Leases, PromptWorld, Explained;
    if acts == [] {
      FirstExplained(r, now);
    } else {
      var init := acts[..|acts| - 1];
      forall k | 0 <= k <= |init| ensures PromptWorld(Exec(r, now, init[..k])) {
        assert init[..k] == acts[..k];
      }
      assert init[..|init|] == init;
      ExplainedAlways(r, now, init);
      LeasesAlways(r, now, init);
      StepExplained(Exec(r, now, init), acts[|acts| - 1]);
    }
  }

  /** While creators complete within their leases, a resumer about to run the frozen batch under a running lease of its
      own has no successor beside it, no matter when it started. */
  lemma RunsUnsuperseded(r: Rec, now: int, acts: seq<Action>, p: nat)
    requires Prompt(r, now, acts)
    requires p in Exec(r, now, acts).resumers && Exec(r, now, acts).resumers[p].at.Cleared?
    requires Live(Exec(r, now, acts).resumers[p].at, Exec(r, now, acts).now)
    ensures Exec(r, now, acts).succs == []
  {
    hide Do, Exec;
    ExplainedAlways(r, now, acts);
    LeasesAlways(r, now, acts);
    assert acts[..|acts|] == acts;
    var w := Exec(r, now, acts);
    assert PromptWorld(w);
    assert Holds(w.rec, w.resumers[p].at, w.now);
    forall q | q in w.resumers ensures !w.resumers[q].at.Created? {
      if w.resumers[q].at.Created? {
        OneLive(w, p, q);
      }
    }
  }

  lemma ExecOne(r: Rec, now: int, acts: seq<Action>, a: Action)
    ensures Exec(r, now, acts + [a]) == Do(Exec(r, now, acts), a)
  {
    hide Do;
    assert (acts + [a])[..|acts|] == acts;
  }

  lemma Approach(r: Rec, acts: seq<Action>, p: nat, v: Verdict) returns (more: seq<Action>)
    requires var w := Exec(r, 0, acts); p !in w.resumers && w.succs == [] && w.rec.status in {Ready, Resuming}
    requires v.RunIt? || (v.Replace? && v.pending != [])
    ensures var w := Exec(r, 0, acts);
            var l := if v.RunIt? then WillRun else WillReplace(v.pending, v.fingerprint);
            Exec(r, 0, more) == w.(resumers := w.resumers[p := Resumer(false, true, l)])
  {
    hide Exec, Step, Records.Creatable;
    var w := Exec(r, 0, acts);
    var a1 := acts + [By(p, Start)];
    ExecOne(r, 0, acts, By(p, Start));
    var a2 := a1 + [By(p, Read)];
    ExecOne(r, 0, a1, By(p, Read));
    var a3 := a2 + [By(p, Lookup)];
    ExecOne(r, 0, a2, By(p, Lookup));
    more := a3 + [By(p, Classify(v))];
    ExecOne(r, 0, a3, By(p, Classify(v)));
    var l := if v.RunIt? then WillRun else WillReplace(v.pending, v.fingerprint);
    assert Exec(r, 0, more).resumers == w.resumers[p := Resumer(false, true, l)];
  }

  lemma LeasesToReplace(w: World, p: nat, owner: string)
    requires (w.rec.status == Ready || (w.rec.status == Resuming && w.rec.expires <= w.now)) && w.succs == [] && owner !in w.used
    requires p in w.resumers && w.resumers[p].alive && w.resumers[p].at.WillReplace?
    ensures var next := Do(Do(w, By(p, Lease(owner, 10))), By(p, LookAgain));
            var l := Vacant(owner, w.now + 10, w.resumers[p].at.pending, w.resumers[p].at.fingerprint);
            && next == w.(rec := next.rec, used := w.used + {owner}, resumers := w.resumers[p := w.resumers[p].(at := l)])
            && next.rec.frozen == w.rec.frozen && next.rec.status == Resuming && next.rec.owner == owner
            && next.rec.expires == w.now + 10
  {
    hide Exec, Records.Creatable, Records.Created, Interrupt.Submit, Interrupt.Give;
    var next := Do(Do(w, By(p, Lease(owner, 10))), By(p, LookAgain));
    var l := Vacant(owner, w.now + 10, w.resumers[p].at.pending, w.resumers[p].at.fingerprint);
    assert next.resumers == w.resumers[p := w.resumers[p].(at := l)];
  }

  lemma CreatesAndDies(w: World, p: nat, owner: string, id: string)
    requires w.now == 0 && p in w.resumers && w.resumers[p].alive && w.resumers[p].at.Vacant?
    requires Records.Creatable(Replacement(w.rec, w.resumers[p].at.pending, w.resumers[p].at.fingerprint))
    ensures var next := Do(Do(w, By(p, CreateSuccessor(id))), By(p, Crash));
            && next.succs != [] && next.rec == w.rec && next.now == 0 && next.used == w.used && next.ran == w.ran
            && forall q :: q != p && q in w.resumers ==> q in next.resumers && next.resumers[q] == w.resumers[q]
  {
    hide Exec, Records.Creatable, Records.Created, Interrupt.Step;
  }

  /** Replaces the record and dies before completing it. */
  lemma ReplaceAndDie(r: Rec, acts: seq<Action>, p: nat, owner: string) returns (more: seq<Action>)
    requires var w := Exec(r, 0, acts);
             && w.now == 0 && w.succs == [] && w.rec.status == Ready && owner !in w.used
             && p in w.resumers && w.resumers[p].alive && w.resumers[p].at.WillReplace?
             && Records.Creatable(Replacement(w.rec, w.resumers[p].at.pending, w.resumers[p].at.fingerprint))
    ensures var w, next := Exec(r, 0, acts), Exec(r, 0, more);
            && next.succs != [] && next.rec.status == Resuming && next.rec.expires == 10 && next.now == 0
            && next.used == w.used + {owner} && next.ran == w.ran
            && forall q :: q != p && q in w.resumers ==> q in next.resumers && next.resumers[q] == w.resumers[q]
  {
    hide Exec, Do, Records.Creatable, Records.Created;
    var w := Exec(r, 0, acts);
    more := acts + [By(p, Lease(owner, 10)), By(p, LookAgain), By(p, CreateSuccessor("successor")), By(p, Crash)];
    FourMore(r, 0, acts, By(p, Lease(owner, 10)), By(p, LookAgain), By(p, CreateSuccessor("successor")), By(p, Crash));
    LeasesToReplace(w, p, owner);
    var w2 := Do(Do(w, By(p, Lease(owner, 10))), By(p, LookAgain));
    SameDraft(w.rec, w2.rec, w.resumers[p].at.pending, w.resumers[p].at.fingerprint);
    CreatesAndDies(w2, p, owner, "successor");
  }

  lemma SameDraft(a: Rec, b: Rec, pending: seq<string>, fingerprint: string)
    requires a.frozen == b.frozen
    ensures Replacement(a, pending, fingerprint) == Replacement(b, pending, fingerprint)
  {
  }

  // ---- exactly when a frozen batch can still be run beside its successor

  /** Some continuation has p run the frozen batch. */
  ghost predicate CanRun(r: Rec, now: int, acts: seq<Action>, p: nat) {
    exists more :: p in Exec(r, now, acts + more).ran
  }

  /** p is on its way to the batch: it has taken a lease for it, which nothing looks at again before the handlers run,
      or it is past the successor lookup and the record will still give it a lease. */
  ghost predicate OnTheWay(w: World, p: nat) {
    && p in w.resumers && w.resumers[p].alive
    && var l := w.resumers[p].at;
       l.LeasedToRun? || l.Cleared? || (PastLookup(l) && w.rec.status != Completed)
  }

  /** Past the successor lookup, without a lease. */
  predicate PastLookup(l: Place) {
    l.NoSuccessor? || l.WillRun?
  }

  /** p runs, or has just run, the frozen batch under a running lease of its own while a successor exists. */
  ghost predicate RunsBeside(w: World, p: nat) {
    p in w.ran && w.succs != [] && p in w.resumers && Live(w.resumers[p].at, w.now)
  }

  /** Some continuation has p run the batch beside a successor, under a running lease. */
  ghost predicate CanRunBeside(r: Rec, now: int, acts: seq<Action>, p: nat) {
    exists more :: RunsBeside(Exec(r, now, acts + more), p)
  }

  predicate PastPending(l: Place) {
    !l.Started? && !(l.HasRecord? && l.status == Status.Pending) && !l.Out?
  }

  /** A resumer that got past the pending probe saw a record that was not pending, and it never is again. */
  ghost predicate SeenDecided(w: World) {
    forall p :: p in w.resumers && PastPending(w.resumers[p].at) ==> w.rec.status != Status.Pending
  }

  /** Who has run the batch is running it or out. */
  ghost predicate RanAreThere(w: World) {
    forall p :: p in w.ran ==> p in w.resumers && (w.resumers[p].at.Running? || w.resumers[p].at.Out?)
  }

  lemma NotPendingAgain(r: Rec, op: Op)
    requires r.status != Status.Pending
    ensures Step(r, op).0.status != Status.Pending
  {
    if op.SubmitOp? {
      SubmitKeepsLease(r, op.ds, op.now);
    }
  }

  lemma RecMoves(w: World, a: Action)
    ensures Do(w, a).rec == w.rec || exists op :: Do(w, a).rec == Step(w.rec, op).0
  {
    hide Step, Records.Creatable;
  }

  lemma StaysDecided(w: World, a: Action)
    requires w.rec.status != Status.Pending
    ensures Do(w, a).rec.status != Status.Pending
  {
    hide Step, Do;
    RecMoves(w, a);
    if Do(w, a).rec != w.rec {
      var op :| Do(w, a).rec == Step(w.rec, op).0;
      NotPendingAgain(w.rec, op);
    }
  }

  lemma SelfDecided(w: World, p: nat, m: Move)
    requires p in w.resumers ==> PastPending(w.resumers[p].at) ==> w.rec.status != Status.Pending
    requires p in Do(w, By(p, m)).resumers && PastPending(Do(w, By(p, m)).resumers[p].at)
    ensures Do(w, By(p, m)).rec.status != Status.Pending
  {
    hide Records.Creatable, Interrupt.Submit;
  }

  lemma StepDecided(w: World, a: Action)
    requires SeenDecided(w)
    ensures SeenDecided(Do(w, a))
  {
    hide Step, Do, PastPending;
    var next := Do(w, a);
    forall q | q in next.resumers && PastPending(next.resumers[q].at) ensures next.rec.status != Status.Pending {
      if a.By? && a.p == q {
        SelfDecided(w, q, a.move);
      } else {
        OthersStay(w, a, q);
        StaysDecided(w, a);
      }
    }
  }

  lemma StepThere(w: World, a: Action)
    requires RanAreThere(w)
    ensures RanAreThere(Do(w, a))
  {
    hide Step, Records.Creatable;
  }

  lemma {:induction false} DecidedAlways(r: Rec, now: int, acts: seq<Action>)
    ensures SeenDecided(Exec(r, now, acts)) && RanAreThere(Exec(r, now, acts))
  {
    hide Do, SeenDecided, RanAreThere;
    if acts == [] {
      FirstDecided(r, now);
    } else {
      var init := acts[..|acts| - 1];
      DecidedAlways(r, now, init);
      StepDecided(Exec(r, now, init), acts[|acts| - 1]);
      StepThere(Exec(r, now, init), acts[|acts| - 1]);
    }
  }

  lemma FirstDecided(r: Rec, now: int)
    ensures SeenDecided(Begin(r, now)) && RanAreThere(Begin(r, now))
  {
  }

  ghost function Longest(used: set<string>): nat {
    if used == {} then 0
    else
      var t :| t in used;
      var rest := Longest(used - {t});
      if |t| > rest then |t| else rest
  }

  lemma {:induction false} LongestIs(used: set<string>)
    ensures forall t :: t in used ==> |t| <= Longest(used)
  {
    if used != {} {
      var t :| t in used && Longest(used) == if |t| > Longest(used - {t}) then |t| else Longest(used - {t});
      LongestIs(used - {t});
    }
  }

  /** There is always another token. */
  lemma Unused(used: set<string>) returns (owner: string)
    ensures owner !in used
  {
    LongestIs(used);
    owner := seq(Longest(used) + 1, i => 'a');
  }

  lemma LeaseWaitedOut(w: World, p: nat, owner: string, d: nat)
    requires w.succs != [] && w.rec.status in {Ready, Resuming} && w.rec.expires <= w.now + d && owner !in w.used
    requires p in w.resumers && w.resumers[p].alive && w.resumers[p].at.WillRun?
    ensures var next := Do(Do(w, Tick(d)), By(p, Lease(owner, 1)));
            && next.succs == w.succs && next.now == w.now + d && p in next.resumers && next.resumers[p].alive
            && next.resumers[p].at == LeasedToRun(owner, w.now + d + 1)
  {
    hide Exec, Records.Creatable, Records.Created, Interrupt.Submit, Interrupt.Give;
  }

  lemma LeaseUsed(w: World, p: nat, owner: string)
    requires w.succs != [] && p in w.resumers && w.resumers[p].alive && w.resumers[p].at == LeasedToRun(owner, w.now + 1)
    ensures RunsBeside(Do(Do(w, By(p, CheckTools(true))), By(p, RunBatch)), p)
  {
    hide Exec, Records.Creatable, Records.Created, Interrupt.Step;
    var w1 := Do(w, By(p, CheckTools(true)));
    assert w1.resumers[p].at == Cleared(owner, w.now + 1) && w1.resumers[p].alive && w1.succs == w.succs && w1.now == w.now;
  }

  /** Waits out whatever lease there is and runs the batch. */
  lemma WaitAndRun(r: Rec, now: int, acts: seq<Action>, p: nat) returns (more: seq<Action>)
    requires var w := Exec(r, now, acts);
             && w.succs != [] && w.rec.status in {Ready, Resuming}
             && p in w.resumers && w.resumers[p].alive && w.resumers[p].at.WillRun?
    ensures RunsBeside(Exec(r, now, acts + more), p)
  {
    hide Exec, Do, RunsBeside;
    var w := Exec(r, now, acts);
    var owner := Unused(w.used);
    var d: nat := if w.rec.expires > w.now then w.rec.expires - w.now else 0;
    more := [Tick(d), By(p, Lease(owner, 1)), By(p, CheckTools(true)), By(p, RunBatch)];
    FourMore(r, now, acts, more[0], more[1], more[2], more[3]);
    LeaseWaitedOut(w, p, owner, d);
    LeaseUsed(Do(Do(w, Tick(d)), By(p, Lease(owner, 1))), p, owner);
  }

  lemma ThreeMore(r: Rec, now: int, acts: seq<Action>, a: Action, b: Action, c: Action)
    ensures Exec(r, now, acts + [a, b, c]) == Do(Do(Do(Exec(r, now, acts), a), b), c)
  {
    hide Do, Exec;
    ExecOne(r, now, acts, a);
    ExecOne(r, now, acts + [a], b);
    ExecOne(r, now, acts + [a] + [b], c);
    assert acts + [a] + [b] + [c] == acts + [a, b, c];
  }

  lemma FourMore(r: Rec, now: int, acts: seq<Action>, a: Action, b: Action, c: Action, d: Action)
    ensures Exec(r, now, acts + [a, b, c, d]) == Do(Do(Do(Do(Exec(r, now, acts), a), b), c), d)
  {
    hide Do, Exec;
    ThreeMore(r, now, acts, a, b, c);
    ExecOne(r, now, acts + [a, b, c], d);
    assert acts + [a, b, c] + [d] == acts + [a, b, c, d];
  }

  /** p is not on its way to the batch and never gets there again. */
  ghost predicate Barred(w: World, p: nat) {
    w.succs != [] && p !in w.ran && !OnTheWay(w, p)
  }

  lemma BarredByLease(w: World, p: nat, m: Move)
    requires Barred(w, p) && m.Lease?
    ensures Barred(Do(w, By(p, m)), p)
  {
    hide Records.Creatable, Interrupt.Submit, Interrupt.Give;
  }

  lemma BarredOtherwise(w: World, p: nat, m: Move)
    requires Barred(w, p) && !m.Lease?
    ensures Barred(Do(w, By(p, m)), p)
  {
    CompletedMoves(w, By(p, m));
    hide Records.Creatable, Step;
  }

  lemma CompletedMoves(w: World, a: Action)
    ensures w.rec.status == Completed ==> Do(w, a).rec.status == Completed
  {
    hide Do;
    if w.rec.status == Completed {
      CompletedStays(w, a);
    }
  }

  lemma BarredSelf(w: World, p: nat, m: Move)
    requires Barred(w, p)
    ensures Barred(Do(w, By(p, m)), p)
  {
    hide Do, Barred;
    if m.Lease? {
      BarredByLease(w, p, m);
    } else {
      BarredOtherwise(w, p, m);
    }
  }

  lemma BarredOther(w: World, a: Action, p: nat)
    requires Barred(w, p) && (a.By? ==> a.p != p)
    ensures Barred(Do(w, a), p)
  {
    hide Do, Step;
    CompletedMoves(w, a);
    OthersStay(w, a, p);
    OnlyOneRuns(w, a, p);
    SuccessorsStay(w, a);
  }

  lemma OnlyOneRuns(w: World, a: Action, p: nat)
    requires a.By? ==> a.p != p
    ensures p in Do(w, a).ran <==> p in w.ran
  {
    hide Step, Records.Creatable;
  }

  lemma {:induction false} BarredStays(r: Rec, now: int, acts: seq<Action>, more: seq<Action>, p: nat)
    requires Barred(Exec(r, now, acts), p)
    ensures Barred(Exec(r, now, acts + more), p)
    decreases |more|
  {
    hide Do, Exec, Barred;
    if more == [] {
      assert acts + more == acts;
    } else {
      var init, a := more[..|more| - 1], more[|more| - 1];
      BarredStays(r, now, acts, init, p);
      ExecNext(r, now, acts, more);
      if a.By? && a.p == p {
        BarredSelf(Exec(r, now, acts + init), p, a.move);
      } else {
        BarredOther(Exec(r, now, acts + init), a, p);
      }
    }
  }

  /** p's lease for the batch has run out, whether it has run the batch by now or not. */
  predicate Overdue(l: Place, now: int) {
    l.Out? || ((l.LeasedToRun? || l.Cleared? || l.Running? || l.Quitting?) && l.expires <= now)
  }

  lemma OverdueSelf(w: World, p: nat, m: Move)
    requires p in w.resumers && Overdue(w.resumers[p].at, w.now)
    ensures var next := Do(w, By(p, m)); p in next.resumers && Overdue(next.resumers[p].at, next.now)
  {
    hide Step, Records.Creatable;
  }

  lemma {:induction false} OverdueStays(r: Rec, now: int, acts: seq<Action>, more: seq<Action>, p: nat)
    requires var w := Exec(r, now, acts); p in w.resumers && Overdue(w.resumers[p].at, w.now)
    ensures var w := Exec(r, now, acts + more); p in w.resumers && Overdue(w.resumers[p].at, w.now)
    decreases |more|
  {
    hide Do, Exec;
    if more == [] {
      assert acts + more == acts;
    } else {
      var init, a := more[..|more| - 1], more[|more| - 1];
      OverdueStays(r, now, acts, init, p);
      ExecNext(r, now, acts, more);
      if a.By? && a.p == p {
        OverdueSelf(Exec(r, now, acts + init), p, a.move);
      } else {
        OthersStay(Exec(r, now, acts + init), a, p);
        NowGrows(Exec(r, now, acts + init), a);
      }
    }
  }

  /** Classifies for itself that the batch may run, if it has not yet. */
  lemma GoAhead(r: Rec, now: int, acts: seq<Action>, p: nat) returns (more: seq<Action>)
    requires var w := Exec(r, now, acts);
             p in w.resumers && w.resumers[p].alive && PastLookup(w.resumers[p].at)
    ensures var w, next := Exec(r, now, acts), Exec(r, now, acts + more);
            && next.succs == w.succs && next.rec == w.rec
            && p in next.resumers && next.resumers[p].alive && next.resumers[p].at.WillRun?
  {
    hide Exec, Step, Records.Creatable;
    var w := Exec(r, now, acts);
    if w.resumers[p].at.WillRun? {
      more := [];
      assert acts + more == acts;
    } else {
      more := [By(p, Classify(RunIt))];
      ExecOne(r, now, acts, By(p, Classify(RunIt)));
    }
  }

  /** A resumer with a lease for the batch runs it at once, whatever has become of the record. */
  lemma UseLease(r: Rec, now: int, acts: seq<Action>, p: nat) returns (more: seq<Action>)
    requires var w := Exec(r, now, acts);
             p in w.resumers && w.resumers[p].alive && (w.resumers[p].at.LeasedToRun? || w.resumers[p].at.Cleared?)
    ensures var w, next := Exec(r, now, acts), Exec(r, now, acts + more);
            && p in next.ran && next.succs == w.succs && next.now == w.now && p in next.resumers
            && next.resumers[p].at == Running(w.resumers[p].at.owner, w.resumers[p].at.expires)
  {
    hide Exec, Step, Records.Creatable;
    if Exec(r, now, acts).resumers[p].at.LeasedToRun? {
      more := [By(p, CheckTools(true)), By(p, RunBatch)];
      ExecOne(r, now, acts, By(p, CheckTools(true)));
      ExecOne(r, now, acts + [By(p, CheckTools(true))], By(p, RunBatch));
      assert acts + [By(p, CheckTools(true))] + [By(p, RunBatch)] == acts + more;
    } else {
      more := [By(p, RunBatch)];
      ExecOne(r, now, acts, By(p, RunBatch));
    }
  }

  /** A resumer past its lookup waits for a lease and runs the batch under it, unless the record is completed. */
  lemma GetLease(r: Rec, now: int, acts: seq<Action>, p: nat) returns (more: seq<Action>)
    requires var w := Exec(r, now, acts);
             w.succs != [] && p in w.resumers && w.resumers[p].alive && PastLookup(w.resumers[p].at) && w.rec.status != Completed
    ensures RunsBeside(Exec(r, now, acts + more), p)
  {
    hide Do, Exec, RunsBeside;
    DecidedAlways(r, now, acts);
    var ahead := GoAhead(r, now, acts, p);
    var rest := WaitAndRun(r, now, acts + ahead, p);
    more := ahead + rest;
    assert acts + ahead + rest == acts + more;
  }

  /** In any reachable world with a successor, and for anyone who has not run the frozen batch yet: some continuation has
      it run the batch if and only if it has already taken a lease for it, or is past its lookup while the record is not
      completed. Neither the expiry of that lease nor the completion of the record stops one who has the lease. */
  lemma StaleRunIff(r: Rec, now: int, acts: seq<Action>, p: nat)
    requires Exec(r, now, acts).succs != [] && p !in Exec(r, now, acts).ran
    ensures CanRun(r, now, acts, p) <==> OnTheWay(Exec(r, now, acts), p)
  {
    hide Do, Exec, RunsBeside;
    var w := Exec(r, now, acts);
    if OnTheWay(w, p) {
      var more;
      if PastLookup(w.resumers[p].at) {
        more := GetLease(r, now, acts, p);
        RunsMeansRan(Exec(r, now, acts + more), p);
      } else {
        more := UseLease(r, now, acts, p);
      }
      assert p in Exec(r, now, acts + more).ran;
    } else {
      forall more ensures p !in Exec(r, now, acts + more).ran {
        BarredStays(r, now, acts, more, p);
      }
    }
  }

  lemma RunsMeansRan(w: World, p: nat)
    requires RunsBeside(w, p)
    ensures p in w.ran
  {
  }

  /** The same for running the batch under a lease that still runs: one who has a lease must be in time. */
  lemma StaleRunInTimeIff(r: Rec, now: int, acts: seq<Action>, p: nat)
    requires Exec(r, now, acts).succs != [] && p !in Exec(r, now, acts).ran
    ensures CanRunBeside(r, now, acts, p) <==>
              var w := Exec(r, now, acts); OnTheWay(w, p) && (PastLookup(w.resumers[p].at) || Live(w.resumers[p].at, w.now))
  {
    hide Do, Exec;
    var w := Exec(r, now, acts);
    if !OnTheWay(w, p) {
      forall more ensures !RunsBeside(Exec(r, now, acts + more), p) {
        BarredStays(r, now, acts, more, p);
      }
    } else if PastLookup(w.resumers[p].at) {
      var more := GetLease(r, now, acts, p);
    } else if Live(w.resumers[p].at, w.now) {
      var more := UseLease(r, now, acts, p);
      assert RunsBeside(Exec(r, now, acts + more), p);
    } else {
      forall more ensures !RunsBeside(Exec(r, now, acts + more), p) {
        OverdueStays(r, now, acts, more, p);
      }
    }
  }

  /** Reachable from any ready record: the first resumer has looked up, the second creates a successor and dies before
      completing the old record; the first then runs the old batch beside the successor, under a running lease. */
  lemma StaleRun(r: Rec) returns (acts: seq<Action>)
    requires r.status == Ready && Records.Creatable(r)
    ensures RunsBeside(Exec(r, 0, acts), 1)
  {
    hide Exec, Live, RunsBeside;
    assert Exec(r, 0, []) == Begin(r, 0) by { FirstExec(r); }
    acts := Approach(r, [], 1, RunIt);
    var pending := [r.pending[0]];
    acts := Approach(r, acts, 2, Replace(pending, "drifted"));
    assert r.pending[0] in r.pending;
    acts := ReplaceAndDie(r, acts, 2, "second");
    var more := GetLease(r, 0, acts, 1);
    acts := acts + more;
  }

  lemma CreatesAndCompletes(w: World, p: nat, owner: string, id: string)
    requires p in w.resumers && w.resumers[p].alive && w.resumers[p].at.Vacant? && w.resumers[p].at.owner == owner
    requires w.rec.status == Resuming && w.rec.owner == owner
    requires Records.Creatable(Replacement(w.rec, w.resumers[p].at.pending, w.resumers[p].at.fingerprint))
    ensures var next := Do(Do(w, By(p, CreateSuccessor(id))), By(p, Complete));
            && next.succs != [] && next.rec.status == Completed && next.ran == w.ran
            && forall q :: q != p && q in w.resumers ==> q in next.resumers && next.resumers[q] == w.resumers[q]
  {
    hide Exec, Records.Creatable, Records.Created, Interrupt.Submit, Interrupt.Acquire;
  }

  /** Takes a lease of length one, passes the tool check, and sleeps past the lease. */
  lemma LeasesAndSleeps(w: World, p: nat, owner: string)
    requires w.now == 0 && w.rec.status == Ready && owner !in w.used
    requires p in w.resumers && w.resumers[p].alive && w.resumers[p].at.WillRun?
    ensures var next := Do(Do(Do(w, By(p, Lease(owner, 1))), By(p, CheckTools(true))), Tick(5));
            && next.succs == w.succs && next.rec.status == Resuming && next.rec.expires <= next.now && next.rec.frozen == w.rec.frozen
            && next.used == w.used + {owner} && next.ran == w.ran
            && next.resumers == w.resumers[p := w.resumers[p].(at := Cleared(owner, 1))]
  {
    hide Exec, Records.Creatable, Records.Created, Interrupt.Submit, Interrupt.Give;
    var leased := Do(w, By(p, Lease(owner, 1)));
    assert leased.resumers == w.resumers[p := w.resumers[p].(at := LeasedToRun(owner, 1))];
    assert Do(leased, By(p, CheckTools(true))).resumers == w.resumers[p := w.resumers[p].(at := Cleared(owner, 1))];
  }

  /** Also reachable from any ready record: the first resumer takes its lease, passes the tool check and sleeps past the
      lease; the second takes a lease of its own, creates a successor and completes the old record; and the first still
      runs the old batch. */
  lemma OverdueRun(r: Rec) returns (acts: seq<Action>)
    requires r.status == Ready && Records.Creatable(r)
    ensures var w := Exec(r, 0, acts); w.succs != [] && w.rec.status == Completed && 1 !in w.ran
    ensures 1 in Exec(r, 0, acts + [By(1, RunBatch)]).ran
  {
    hide Exec, Do;
    assert Exec(r, 0, []) == Begin(r, 0) by { FirstExec(r); }
    var pending := [r.pending[0]];
    assert r.pending[0] in r.pending;
    acts := Approach(r, [], 1, RunIt);
    ThreeMore(r, 0, acts, By(1, Lease("one", 1)), By(1, CheckTools(true)), Tick(5));
    LeasesAndSleeps(Exec(r, 0, acts), 1, "one");
    acts := acts + [By(1, Lease("one", 1)), By(1, CheckTools(true)), Tick(5)];
    acts := Approach(r, acts, 2, Replace(pending, "drifted"));
    var w := Exec(r, 0, acts);
    SameDraft(r, w.rec, pending, "drifted");
    var before := acts;
    acts := before + [By(2, Lease("two", 10)), By(2, LookAgain), By(2, CreateSuccessor("successor")), By(2, Complete)];
    FourMore(r, 0, before, By(2, Lease("two", 10)), By(2, LookAgain), By(2, CreateSuccessor("successor")), By(2, Complete));
    LeasesToReplace(w, 2, "two");
    var w2 := Do(Do(w, By(2, Lease("two", 10))), By(2, LookAgain));
    SameDraft(w.rec, w2.rec, pending, "drifted");
    CreatesAndCompletes(w2, 2, "two", "successor");
    ExecOne(r, 0, acts, By(1, RunBatch));
    ClearedRuns(Exec(r, 0, acts), 1);
  }

  lemma ClearedRuns(w: World, p: nat)
    requires p in w.resumers && w.resumers[p].alive && w.resumers[p].at.Cleared?
    ensures p in Do(w, By(p, RunBatch)).ran
  {
  }

  lemma FirstExec(r: Rec)
    ensures Exec(r, 0, []) == Begin(r, 0)
  {
  }
}
