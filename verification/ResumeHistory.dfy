/** What a resume leaves behind, and what must have come before it: nobody runs or replaces a batch without cause, and no
    interrupt is closed with its batch neither run nor replaced. */
module ResumeHistory {
  import opened Wrappers
  import opened Interrupt
  import opened Resume
  import Records = Record

  // ---- what must have come before

  /** The i-th action is p's, and is this move. */
  ghost predicate Took(acts: seq<Action>, i: nat, p: nat, m: Move) {
    i < |acts| && acts[i] == By(p, m)
  }

  /** p has looked for a successor when there was none. */
  ghost predicate LookedInVain(r: Rec, now: int, acts: seq<Action>, p: nat) {
    exists i: nat :: Took(acts, i, p, Lookup) && Exec(r, now, acts[..i]).succs == []
  }

  /** p's policy has given this verdict. */
  ghost predicate Told(acts: seq<Action>, p: nat, v: Verdict) {
    exists i: nat :: Took(acts, i, p, Classify(v))
  }

  ghost predicate GrantedAt(r: Rec, now: int, acts: seq<Action>, p: nat, i: nat, owner: string, ttl: int) {
    && Took(acts, i, p, Lease(owner, ttl))
    && var w := Exec(r, now, acts[..i]); Step(w.rec, AcquireOp(owner, ttl, w.now)).1.err == None
  }

  /** p has been granted a lease. */
  ghost predicate Granted(r: Rec, now: int, acts: seq<Action>, p: nat) {
    exists i: nat, owner, ttl :: GrantedAt(r, now, acts, p, i, owner, ttl)
  }

  /** p has found all tools of the batch there. */
  ghost predicate ToolsThere(acts: seq<Action>, p: nat) {
    exists i: nat :: Took(acts, i, p, CheckTools(true))
  }

  /** All that must have come before p runs the batch. */
  ghost predicate MayRun(r: Rec, now: int, acts: seq<Action>, p: nat) {
    LookedInVain(r, now, acts, p) && Told(acts, p, RunIt) && Granted(r, now, acts, p) && ToolsThere(acts, p)
  }

  lemma TookStays(acts: seq<Action>, i: nat, p: nat, m: Move)
    requires acts != [] && Took(acts[..|acts| - 1], i, p, m)
    ensures Took(acts, i, p, m) && acts[..|acts| - 1][..i] == acts[..i]
  {
  }

  lemma FactsStay(r: Rec, now: int, acts: seq<Action>, p: nat)
    requires acts != []
    ensures var init := acts[..|acts| - 1];
            && (LookedInVain(r, now, init, p) ==> LookedInVain(r, now, acts, p))
            && (Granted(r, now, init, p) ==> Granted(r, now, acts, p))
            && (ToolsThere(init, p) ==> ToolsThere(acts, p))
  {
    hide Exec, Step;
    var init := acts[..|acts| - 1];
    if LookedInVain(r, now, init, p) {
      var i: nat :| Took(init, i, p, Lookup) && Exec(r, now, init[..i]).succs == [];
      TookStays(acts, i, p, Lookup);
    }
    if Granted(r, now, init, p) {
      var i: nat, owner, ttl :| GrantedAt(r, now, init, p, i, owner, ttl);
      TookStays(acts, i, p, Lease(owner, ttl));
      assert GrantedAt(r, now, acts, p, i, owner, ttl);
    }
    if ToolsThere(init, p) {
      var i: nat :| Took(init, i, p, CheckTools(true));
      TookStays(acts, i, p, CheckTools(true));
    }
  }

  lemma ToldStays(acts: seq<Action>, p: nat, v: Verdict)
    requires acts != [] && Told(acts[..|acts| - 1], p, v)
    ensures Told(acts, p, v)
  {
    var i: nat :| Took(acts[..|acts| - 1], i, p, Classify(v));
    TookStays(acts, i, p, Classify(v));
  }

  /** What the place a resumer has come to says about its past. */
  ghost predicate Trail(r: Rec, now: int, acts: seq<Action>, p: nat, l: Place) {
    && (l.NoSuccessor? || l.WillRun? || l.WillReplace? || l.LeasedToRun? || l.Cleared? || l.LeasedToReplace? || l.Vacant? ==>
          LookedInVain(r, now, acts, p))
    && (l.WillRun? || l.LeasedToRun? || l.Cleared? ==> Told(acts, p, RunIt))
    && (l.WillReplace? || l.LeasedToReplace? || l.Vacant? ==> Told(acts, p, Replace(l.pending, l.fingerprint)))
    && (HasLease(l) ==> Granted(r, now, acts, p))
    && (l.Cleared? ==> ToolsThere(acts, p))
  }

  ghost predicate AllTrails(r: Rec, now: int, acts: seq<Action>) {
    var w := Exec(r, now, acts);
    && (forall p :: p in w.resumers ==> Trail(r, now, acts, p, w.resumers[p].at))
    && (forall p :: p in w.ran ==> MayRun(r, now, acts, p))
  }

  lemma TrailStays(r: Rec, now: int, acts: seq<Action>, p: nat, l: Place)
    requires acts != [] && Trail(r, now, acts[..|acts| - 1], p, l)
    ensures Trail(r, now, acts, p, l)
  {
    hide LookedInVain, Told, Granted, ToolsThere;
    FactsStay(r, now, acts, p);
    if l.WillRun? || l.LeasedToRun? || l.Cleared? {
      ToldStays(acts, p, RunIt);
    }
    if l.WillReplace? || l.LeasedToReplace? || l.Vacant? {
      ToldStays(acts, p, Replace(l.pending, l.fingerprint));
    }
  }

  lemma MayRunStays(r: Rec, now: int, acts: seq<Action>, p: nat)
    requires acts != [] && MayRun(r, now, acts[..|acts| - 1], p)
    ensures MayRun(r, now, acts, p)
  {
    hide LookedInVain, Told, Granted, ToolsThere;
    FactsStay(r, now, acts, p);
    ToldStays(acts, p, RunIt);
  }

  /** What p's own last step adds to its past. */
  lemma NewFacts(r: Rec, now: int, acts: seq<Action>, p: nat, m: Move)
    requires acts != [] && acts[|acts| - 1] == By(p, m)
    ensures var w := Exec(r, now, acts[..|acts| - 1]);
            && (m.Lookup? && w.succs == [] ==> LookedInVain(r, now, acts, p))
            && (m.Classify? ==> Told(acts, p, m.verdict))
            && (m.Lease? && Step(w.rec, AcquireOp(m.owner, m.ttl, w.now)).1.err == None ==> Granted(r, now, acts, p))
            && (m.CheckTools? && m.ok ==> ToolsThere(acts, p))
  {
    hide Exec, Step;
    assert Took(acts, |acts| - 1, p, m);
    if m.Lease? && Step(Exec(r, now, acts[..|acts| - 1]).rec, AcquireOp(m.owner, m.ttl, Exec(r, now, acts[..|acts| - 1]).now)).1.err == None {
      assert GrantedAt(r, now, acts, p, |acts| - 1, m.owner, m.ttl);
    }
  }

  lemma SelfFree(r: Rec, now: int, acts: seq<Action>, p: nat, m: Move)
    requires acts != [] && acts[|acts| - 1] == By(p, m)
    requires var w := Exec(r, now, acts[..|acts| - 1]);
             && p in w.resumers && !HasLease(w.resumers[p].at) && Trail(r, now, acts, p, w.resumers[p].at)
    ensures var w := Exec(r, now, acts[..|acts| - 1]);
            p in DoFree(w, p, m).resumers && Trail(r, now, acts, p, DoFree(w, p, m).resumers[p].at) && DoFree(w, p, m).ran == w.ran
  {
    hide Exec, Step, LookedInVain, Told, Granted, ToolsThere;
    NewFacts(r, now, acts, p, m);
  }

  lemma SelfLeased(r: Rec, now: int, acts: seq<Action>, p: nat, m: Move)
    requires acts != [] && acts[|acts| - 1] == By(p, m)
    requires var w := Exec(r, now, acts[..|acts| - 1]);
             && p in w.resumers && HasLease(w.resumers[p].at) && Trail(r, now, acts, p, w.resumers[p].at)
    ensures var w := Exec(r, now, acts[..|acts| - 1]); var next := DoLeased(w, p, m);
            && p in next.resumers && Trail(r, now, acts, p, next.resumers[p].at)
            && (next.ran == w.ran || (next.ran == w.ran + {p} && MayRun(r, now, acts, p)))
  {
    hide Exec, Step, LookedInVain, Told, Granted, ToolsThere, Records.Creatable, Records.Created;
    NewFacts(r, now, acts, p, m);
  }

  lemma SelfTrail(r: Rec, now: int, acts: seq<Action>, p: nat, m: Move)
    requires acts != [] && acts[|acts| - 1] == By(p, m)
    requires var w := Exec(r, now, acts[..|acts| - 1]); p in w.resumers ==> Trail(r, now, acts, p, w.resumers[p].at)
    ensures var w := Exec(r, now, acts[..|acts| - 1]); var next := Do(w, By(p, m));
            && (p in next.resumers ==> Trail(r, now, acts, p, next.resumers[p].at))
            && (next.ran == w.ran || (next.ran == w.ran + {p} && MayRun(r, now, acts, p)))
  {
    hide Exec, Trail, MayRun, DoFree, DoLeased;
    var w := Exec(r, now, acts[..|acts| - 1]);
    if p in w.resumers {
      if HasLease(w.resumers[p].at) {
        SelfLeased(r, now, acts, p, m);
      } else {
        SelfFree(r, now, acts, p, m);
      }
    } else {
      NothingYet(r, now, acts, p);
    }
  }

  lemma NothingYet(r: Rec, now: int, acts: seq<Action>, p: nat)
    ensures Trail(r, now, acts, p, Started)
  {
  }

  lemma RanOnlyBy(w: World, a: Action)
    ensures !a.By? ==> Do(w, a).ran == w.ran
  {
    hide Step;
  }

  lemma StepTrails(r: Rec, now: int, acts: seq<Action>)
    requires acts != [] && AllTrails(r, now, acts[..|acts| - 1])
    ensures AllTrails(r, now, acts)
  {
    hide Do, Trail, MayRun;
    var init, a := acts[..|acts| - 1], acts[|acts| - 1];
    var w, next := Exec(r, now, init), Exec(r, now, acts);
    assert next == Do(w, a);
    hide Exec;
    forall q | q in w.resumers ensures Trail(r, now, acts, q, w.resumers[q].at) {
      TrailStays(r, now, acts, q, w.resumers[q].at);
    }
    forall q | q in w.ran ensures MayRun(r, now, acts, q) {
      MayRunStays(r, now, acts, q);
    }
    RanOnlyBy(w, a);
    if a.By? {
      SelfTrail(r, now, acts, a.p, a.move);
    }
    forall q | q in next.resumers ensures Trail(r, now, acts, q, next.resumers[q].at) {
      if !(a.By? && a.p == q) {
        OthersStay(w, a, q);
      }
    }
  }

  lemma {:induction false} TrailsAlways(r: Rec, now: int, acts: seq<Action>)
    ensures AllTrails(r, now, acts)
  {
    hide AllTrails;
    if acts == [] {
      NoTrails(r, now);
    } else {
      TrailsAlways(r, now, acts[..|acts| - 1]);
      StepTrails(r, now, acts);
    }
  }

  lemma NoTrails(r: Rec, now: int)
    ensures AllTrails(r, now, [])
  {
  }

  /** In any interleaving, whoever has run the frozen batch had looked for a successor and found none, had been told by its
      own policy that the batch may run, had been granted a lease, and had found every tool there. */
  lemma RanMeans(r: Rec, now: int, acts: seq<Action>, p: nat)
    requires p in Exec(r, now, acts).ran
    ensures LookedInVain(r, now, acts, p) && Told(acts, p, RunIt) && Granted(r, now, acts, p) && ToolsThere(acts, p)
  {
    hide Exec, Trail;
    TrailsAlways(r, now, acts);
  }

  // ---- successors

  /** Some resumer's policy has asked for just these pending calls under just this fingerprint. */
  ghost predicate Asked(acts: seq<Action>, s: Rec) {
    exists q: nat :: Told(acts, q, Replace(s.pending, s.frozen.fingerprint))
  }

  lemma AskedStays(acts: seq<Action>, s: Rec, t: Rec)
    requires acts != [] && Asked(acts[..|acts| - 1], s) && t.pending == s.pending && t.frozen == s.frozen
    ensures Asked(acts, t)
  {
    hide Told;
    var q: nat :| Told(acts[..|acts| - 1], q, Replace(s.pending, s.frozen.fingerprint));
    ToldStays(acts, q, Replace(s.pending, s.frozen.fingerprint));
  }

  /** Using a successor changes neither what is pending in it nor what it froze. */
  lemma SuccessorKept(w: World, a: Action, i: nat)
    requires i < |w.succs|
    ensures i < |Do(w, a).succs| && Do(w, a).succs[i].pending == w.succs[i].pending && Do(w, a).succs[i].frozen == w.succs[i].frozen
  {
    hide Step, Records.Creatable;
    if a.OnSuccessor? && a.i == i {
      StepKeeps(w.succs[i], a.op);
    }
  }

  lemma NewSuccessor(w: World, a: Action)
    requires |Do(w, a).succs| > |w.succs|
    ensures a.By? && a.p in w.resumers && w.resumers[a.p].at.Vacant?
    ensures var s, l := Do(w, a).succs[|w.succs|], w.resumers[a.p].at; s.pending == l.pending && s.frozen.fingerprint == l.fingerprint
  {
    hide Step, Records.Creatable;
  }

  /** In any interleaving, a successor's pending calls and fingerprint are those that the policy of some resumer gave when
      it classified the frozen batch. */
  lemma {:induction false} SuccessorsWereAsked(r: Rec, now: int, acts: seq<Action>)
    ensures forall i :: 0 <= i < |Exec(r, now, acts).succs| ==> Asked(acts, Exec(r, now, acts).succs[i])
  {
    if acts != [] {
      hide Do, Asked;
      var init, a := acts[..|acts| - 1], acts[|acts| - 1];
      var w, next := Exec(r, now, init), Exec(r, now, acts);
      assert next == Do(w, a);
      hide Exec;
      SuccessorsWereAsked(r, now, init);
      forall i | 0 <= i < |next.succs| ensures Asked(acts, next.succs[i]) {
        if i < |w.succs| {
          SuccessorKept(w, a, i);
          AskedStays(acts, w.succs[i], next.succs[i]);
        } else {
          CreatesOnly(w, a);
          NewSuccessor(w, a);
          TrailsAlways(r, now, init);
          VacantWasAsked(r, now, acts, a.p, w.resumers[a.p].at, next.succs[i]);
        }
      }
    }
  }

  lemma VacantWasAsked(r: Rec, now: int, acts: seq<Action>, p: nat, l: Place, s: Rec)
    requires acts != [] && l.Vacant? && Trail(r, now, acts[..|acts| - 1], p, l)
    requires s.pending == l.pending && s.frozen.fingerprint == l.fingerprint
    ensures Asked(acts, s)
  {
    hide Told, LookedInVain, Granted, ToolsThere;
    ToldStays(acts, p, Replace(l.pending, l.fingerprint));
  }

  // ---- nothing is lost

  /** Whoever is about to complete the record has run the batch, or there is a successor. */
  ghost predicate Earned(w: World, p: nat)
    requires p in w.resumers
  {
    var l := w.resumers[p].at;
    && (l.Running? ==> p in w.ran)
    && (l.WillFinish? || l.Finishing? || l.Created? ==> w.succs != [])
  }

  ghost predicate AllEarned(r: Rec, w: World) {
    && (forall p :: p in w.resumers ==> Earned(w, p))
    && (w.rec.status == Completed && r.status != Completed ==> w.ran != {} || w.succs != [])
  }

  lemma SelfEarned(w: World, p: nat, m: Move)
    requires p in w.resumers ==> Earned(w, p)
    ensures var next := Do(w, By(p, m));
            && (p in next.resumers ==> Earned(next, p))
            && (next.rec.status == Completed && w.rec.status != Completed ==> next.ran != {} || next.succs != [])
  {
    hide Records.Creatable, Interrupt.Take;
  }

  lemma OnlyMoversComplete(w: World, a: Action)
    requires !a.By? && w.rec.status != Completed
    ensures Do(w, a).rec.status != Completed
  {
    hide Interrupt.Take, AllDecided;
  }

  lemma NeverFewer(w: World, a: Action)
    ensures w.ran <= Do(w, a).ran && |w.succs| <= |Do(w, a).succs|
  {
    hide Step, Records.Creatable;
  }

  lemma StepEarned(r: Rec, w: World, a: Action)
    requires AllEarned(r, w)
    ensures AllEarned(r, Do(w, a))
  {
    hide Do;
    var next := Do(w, a);
    NeverFewer(w, a);
    if a.By? {
      SelfEarned(w, a.p, a.move);
    } else if w.rec.status != Completed {
      OnlyMoversComplete(w, a);
    }
    forall q | q in next.resumers ensures Earned(next, q) {
      if !(a.By? && a.p == q) {
        OthersStay(w, a, q);
        assert Earned(w, q);
      }
    }
  }

  lemma {:induction false} EarnedAlways(r: Rec, now: int, acts: seq<Action>)
    ensures AllEarned(r, Exec(r, now, acts))
  {
    hide Do, AllEarned;
    if acts == [] {
      NoneEarned(r, now);
    } else {
      EarnedAlways(r, now, acts[..|acts| - 1]);
      StepEarned(r, Exec(r, now, acts[..|acts| - 1]), acts[|acts| - 1]);
    }
  }

  lemma NoneEarned(r: Rec, now: int)
    ensures AllEarned(r, Begin(r, now))
  {
  }

  /** In any interleaving, with crashes anywhere: an interrupt is completed only after its batch was run or a successor
      took its place. */
  lemma NothingLost(r: Rec, now: int, acts: seq<Action>)
    requires r.status != Completed && Exec(r, now, acts).rec.status == Completed
    ensures Exec(r, now, acts).ran != {} || Exec(r, now, acts).succs != []
  {
    hide Exec, Earned;
    EarnedAlways(r, now, acts);
  }

  // ---- what a resumer that is left alone achieves

  /** The record will give a lease now. */
  ghost predicate Free(w: World) {
    w.rec.status == Ready || (w.rec.status == Resuming && w.rec.expires <= w.now)
  }

  lemma LooksUp(w: World, p: nat)
    requires Free(w) && p !in w.resumers
    ensures var next := Do(Do(Do(w, By(p, Start)), By(p, Read)), By(p, Lookup));
            && p in next.resumers && next.resumers[p].alive && next.resumers[p].at == (if w.succs == [] then NoSuccessor else WillFinish)
            && next.rec == w.rec && next.succs == w.succs && next.now == w.now && next.used == w.used && next.ran == w.ran
  {
    hide Step, Records.Creatable;
  }

  lemma TakesLease(w: World, p: nat, owner: string, ttl: int)
    requires Free(w) && owner !in w.used && p in w.resumers && w.resumers[p].alive
    requires var l := w.resumers[p].at; l.WillRun? || l.WillReplace? || l.WillFinish?
    ensures var next, l := Do(w, By(p, Lease(owner, ttl))), w.resumers[p].at;
            && next.rec.status == Resuming && next.rec.owner == owner && next.rec.frozen == w.rec.frozen
            && next.succs == w.succs && next.now == w.now && next.ran == w.ran && p in next.resumers && next.resumers[p].alive
            && next.resumers[p].at == match l
                                      case WillRun => LeasedToRun(owner, w.now + ttl)
                                      case WillReplace(pending, fp) => LeasedToReplace(owner, w.now + ttl, pending, fp)
                                      case _ => Finishing(owner, w.now + ttl)
  {
    hide Records.Creatable, Interrupt.Submit, Interrupt.Give;
  }

  lemma ClosesUp(w: World, p: nat)
    requires p in w.resumers && w.resumers[p].alive && w.rec.status == Resuming
    requires var l := w.resumers[p].at; (l.Running? || l.Created? || l.Finishing?) && l.owner == w.rec.owner
    ensures var next := Do(w, By(p, Complete)); next.rec.status == Completed && next.succs == w.succs && next.ran == w.ran
  {
    hide Records.Creatable, Interrupt.Submit, Interrupt.Acquire;
  }

  lemma BacksOut(w: World, p: nat)
    requires p in w.resumers && w.resumers[p].alive && w.rec.status == Resuming
    requires var l := w.resumers[p].at; (l.Running? || l.Quitting?) && l.owner == w.rec.owner
    ensures var next := Do(w, By(p, Release)); Free(next) && next.succs == w.succs && next.ran == w.ran && next.rec.owner == ""
  {
    hide Records.Creatable, Interrupt.Submit, Interrupt.Acquire;
  }

  lemma RunsBatch(w: World, p: nat)
    requires p in w.resumers && w.resumers[p].alive && w.resumers[p].at.LeasedToRun?
    ensures var next, l := Do(Do(w, By(p, CheckTools(true))), By(p, RunBatch)), w.resumers[p].at;
            && next.ran == w.ran + {p} && next.rec == w.rec && next.succs == w.succs
            && p in next.resumers && next.resumers[p].alive && next.resumers[p].at == Running(l.owner, l.expires)
  {
    hide Step, Records.Creatable;
  }

  lemma MissesTools(w: World, p: nat)
    requires p in w.resumers && w.resumers[p].alive && w.resumers[p].at.LeasedToRun?
    ensures var next, l := Do(w, By(p, CheckTools(false))), w.resumers[p].at;
            && next.ran == w.ran && next.rec == w.rec && next.succs == w.succs
            && p in next.resumers && next.resumers[p].alive && next.resumers[p].at == Quitting(l.owner, l.expires)
  {
    hide Step, Records.Creatable;
  }

  lemma Creates(w: World, p: nat, id: string)
    requires p in w.resumers && w.resumers[p].alive && w.resumers[p].at.LeasedToReplace? && w.succs == []
    requires Records.Creatable(Replacement(w.rec, w.resumers[p].at.pending, w.resumers[p].at.fingerprint))
    ensures var next, l := Do(Do(w, By(p, LookAgain)), By(p, CreateSuccessor(id))), w.resumers[p].at;
            && |next.succs| == 1 && next.rec == w.rec && next.ran == w.ran
            && p in next.resumers && next.resumers[p].alive && next.resumers[p].at == Resume.Created(l.owner, l.expires)
            && var s := next.succs[0];
               s.pending == l.pending && s.decisions == map[] && s.frozen.id == id
               && s.frozen.fingerprint == l.fingerprint && s.frozen.supersedes == w.rec.frozen.id && s.frozen.calls == w.rec.frozen.calls
  {
    hide Step, Records.Creatable;
  }

  lemma Classifies(w: World, p: nat, v: Verdict)
    requires p in w.resumers && w.resumers[p].alive && w.resumers[p].at.NoSuccessor?
    requires v.RunIt? || (v.Replace? && v.pending != [])
    ensures var next := Do(w, By(p, Classify(v)));
            && p in next.resumers && next.resumers[p].alive
            && next.resumers[p].at == (if v.RunIt? then WillRun else WillReplace(v.pending, v.fingerprint))
            && next.rec == w.rec && next.succs == w.succs && next.now == w.now && next.used == w.used && next.ran == w.ran
  {
    hide Step, Records.Creatable;
  }

  /** Looks up, finds nothing, classifies and takes a lease. */
  lemma GetsLease(r: Rec, now: int, acts: seq<Action>, p: nat, v: Verdict, owner: string, ttl: int) returns (more: seq<Action>)
    requires var w := Exec(r, now, acts); Free(w) && w.succs == [] && p !in w.resumers && owner !in w.used
    requires v.RunIt? || (v.Replace? && v.pending != [])
    ensures more == [By(p, Start), By(p, Read), By(p, Lookup), By(p, Classify(v)), By(p, Lease(owner, ttl))]
    ensures var w, next := Exec(r, now, acts), Exec(r, now, acts + more);
            && next.succs == [] && next.ran == w.ran && p in next.resumers && next.resumers[p].alive
            && next.rec.status == Resuming && next.rec.owner == owner && next.rec.frozen == w.rec.frozen
            && next.resumers[p].at == if v.RunIt? then LeasedToRun(owner, w.now + ttl)
                                      else LeasedToReplace(owner, w.now + ttl, v.pending, v.fingerprint)
  {
    hide Exec, Do;
    var w := Exec(r, now, acts);
    ThreeMore(r, now, acts, By(p, Start), By(p, Read), By(p, Lookup));
    LooksUp(w, p);
    var three := acts + [By(p, Start), By(p, Read), By(p, Lookup)];
    ExecOne(r, now, three, By(p, Classify(v)));
    Classifies(Exec(r, now, three), p, v);
    var four := three + [By(p, Classify(v))];
    ExecOne(r, now, four, By(p, Lease(owner, ttl)));
    TakesLease(Exec(r, now, four), p, owner, ttl);
    more := [By(p, Start), By(p, Read), By(p, Lookup), By(p, Classify(v)), By(p, Lease(owner, ttl))];
    assert acts + more == four + [By(p, Lease(owner, ttl))];
  }

  /** Left alone with a record that gives leases and has no successor, a resumer whose policy lets the batch run runs it and
      completes the record; if a tool is missing it gives the lease back and has run nothing. */
  lemma RunsOrBacksOut(r: Rec, now: int, acts: seq<Action>, p: nat, owner: string, ttl: int, ok: bool) returns (more: seq<Action>)
    requires var w := Exec(r, now, acts); Free(w) && w.succs == [] && p !in w.resumers && owner !in w.used
    ensures more == [By(p, Start), By(p, Read), By(p, Lookup), By(p, Classify(RunIt)), By(p, Lease(owner, ttl)), By(p, CheckTools(ok))]
                    + if ok then [By(p, RunBatch), By(p, Complete)] else [By(p, Release)]
    ensures var w, next := Exec(r, now, acts), Exec(r, now, acts + more);
            && next.succs == []
            && (if ok then next.rec.status == Completed && next.ran == w.ran + {p} else Free(next) && next.ran == w.ran)
  {
    hide Exec, Do, Free;
    var five := GetsLease(r, now, acts, p, RunIt, owner, ttl);
    var all := acts + five;
    var w := Exec(r, now, all);
    ExecOne(r, now, all, By(p, CheckTools(ok)));
    var six := all + [By(p, CheckTools(ok))];
    if ok {
      ExecOne(r, now, six, By(p, RunBatch));
      RunsBatch(w, p);
      var seven := six + [By(p, RunBatch)];
      ExecOne(r, now, seven, By(p, Complete));
      ClosesUp(Exec(r, now, seven), p);
      more := five + [By(p, CheckTools(ok)), By(p, RunBatch), By(p, Complete)];
      assert acts + more == seven + [By(p, Complete)];
    } else {
      MissesTools(w, p);
      ExecOne(r, now, six, By(p, Release));
      BacksOut(Exec(r, now, six), p);
      more := five + [By(p, CheckTools(ok)), By(p, Release)];
      assert acts + more == six + [By(p, Release)];
    }
  }

  /** Left alone, one whose policy asks for a replacement leaves exactly one successor, undecided, pending what the policy
      flagged, and the record completed; the batch has not run. */
  lemma Replaces(r: Rec, now: int, acts: seq<Action>, p: nat, v: Verdict, owner: string, ttl: int, id: string)
    returns (more: seq<Action>)
    requires var w := Exec(r, now, acts);
             && Free(w) && w.succs == [] && p !in w.resumers && owner !in w.used
             && v.Replace? && v.pending != [] && Records.Creatable(Replacement(w.rec, v.pending, v.fingerprint))
    ensures more == [By(p, Start), By(p, Read), By(p, Lookup), By(p, Classify(v)), By(p, Lease(owner, ttl)), By(p, LookAgain),
                     By(p, CreateSuccessor(id)), By(p, Complete)]
    ensures var w, next := Exec(r, now, acts), Exec(r, now, acts + more);
            && next.rec.status == Completed && next.ran == w.ran && |next.succs| == 1
            && var s := next.succs[0];
               s.pending == v.pending && s.decisions == map[] && s.frozen.id == id
               && s.frozen.fingerprint == v.fingerprint && s.frozen.supersedes == w.rec.frozen.id && s.frozen.calls == w.rec.frozen.calls
  {
    hide Exec, Do, Free, Records.Creatable;
    var five := GetsLease(r, now, acts, p, v, owner, ttl);
    var all := acts + five;
    var w := Exec(r, now, all);
    SameDraft(Exec(r, now, acts).rec, w.rec, v.pending, v.fingerprint);
    ExecOne(r, now, all, By(p, LookAgain));
    var six := all + [By(p, LookAgain)];
    ExecOne(r, now, six, By(p, CreateSuccessor(id)));
    Creates(w, p, id);
    var seven := six + [By(p, CreateSuccessor(id))];
    ExecOne(r, now, seven, By(p, Complete));
    ClosesUp(Exec(r, now, seven), p);
    more := five + [By(p, LookAgain), By(p, CreateSuccessor(id)), By(p, Complete)];
    assert acts + more == seven + [By(p, Complete)];
  }

  /** Whoever comes to a record that already has a successor, as after a crash of its creator, only completes it. */
  lemma FinishesForAnother(r: Rec, now: int, acts: seq<Action>, p: nat, owner: string, ttl: int) returns (more: seq<Action>)
    requires var w := Exec(r, now, acts); Free(w) && w.succs != [] && p !in w.resumers && owner !in w.used
    ensures more == [By(p, Start), By(p, Read), By(p, Lookup), By(p, Lease(owner, ttl)), By(p, Complete)]
    ensures var w, next := Exec(r, now, acts), Exec(r, now, acts + more);
            next.rec.status == Completed && next.succs == w.succs && next.ran == w.ran
  {
    hide Exec, Do;
    var w := Exec(r, now, acts);
    ThreeMore(r, now, acts, By(p, Start), By(p, Read), By(p, Lookup));
    LooksUp(w, p);
    var three := acts + [By(p, Start), By(p, Read), By(p, Lookup)];
    ExecOne(r, now, three, By(p, Lease(owner, ttl)));
    TakesLease(Exec(r, now, three), p, owner, ttl);
    var four := three + [By(p, Lease(owner, ttl))];
    ExecOne(r, now, four, By(p, Complete));
    ClosesUp(Exec(r, now, four), p);
    more := [By(p, Start), By(p, Read), By(p, Lookup), By(p, Lease(owner, ttl)), By(p, Complete)];
    assert acts + more == four + [By(p, Complete)];
  }
}
