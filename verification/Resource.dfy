/** Concurrency slots: an optional global slot, then one semaphore per resource tag, taken in ascending order. */
module Resource {
  import opened Order
  import Graph

  datatype Res = Global | Tag(name: string)

  /** Capacities of the semaphores that exist, and the tags of each runner. */
  datatype Setup = Setup(limit: map<Res, nat>, tags: seq<seq<string>>)

  /** A runner acquires its plan one slot at a time, works, and gives slots back one at a time. */
  datatype Pc = Acquiring(k: nat) | Working | Releasing(rest: seq<Res>) | Ended

  datatype State = State(pcs: seq<Pc>, occupied: map<Res, nat>)

  datatype Step = Acquire(p: nat) | Begin(p: nat) | Cancel(p: nat) | Finish(p: nat) | Release(p: nat) | End(p: nat)

  predicate Before(a: Res, b: Res) {
    b.Tag? && (a.Global? || Less(a.name, b.name))
  }

  /** The semaphores behind a list of tags; tags without a limit are passed over. */
  function Guarded(limit: map<Res, nat>, tags: seq<string>): seq<Res> {
    if tags == [] then []
    else
      var init, last := Guarded(limit, tags[..|tags| - 1]), Tag(tags[|tags| - 1]);
      if last in limit then init + [last] else init
  }

  function GlobalPart(limit: map<Res, nat>): seq<Res> {
    if Global in limit then [Global] else []
  }

  /** What a runner takes, in order. */
  function Plan(su: Setup, p: nat): seq<Res>
    requires p < |su.tags|
  {
    GlobalPart(su.limit) + Guarded(su.limit, Sort(su.tags[p]))
  }

  /** Given back after a cancellation: the tags taken so far in the order taken, then the global slot. */
  function UndoPlan(su: Setup, p: nat, k: nat): seq<Res>
    requires p < |su.tags| && k <= |Plan(su, p)|
  {
    if k == 0 then [] else Plan(su, p)[|GlobalPart(su.limit)|..k] + GlobalPart(su.limit)
  }

  /** Given back after the work: the tags as the node lists them, then the global slot. */
  function ReturnPlan(su: Setup, p: nat): seq<Res>
    requires p < |su.tags|
  {
    Guarded(su.limit, su.tags[p]) + GlobalPart(su.limit)
  }

  /** A limited number of global slots is never zero: without a positive limit there is no such semaphore. */
  predicate ValidSetup(su: Setup) {
    Global in su.limit ==> su.limit[Global] >= 1
  }

  function Init(su: Setup): State {
    State(seq(|su.tags|, i => Acquiring(0)), map r | r in su.limit :: 0)
  }

  predicate Enabled(su: Setup, s: State, st: Step) {
    && st.p < |s.pcs| == |su.tags|
    && match st
       case Acquire(p) =>
         && s.pcs[p].Acquiring? && s.pcs[p].k < |Plan(su, p)|
         && var r := Plan(su, p)[s.pcs[p].k];
            r in s.occupied && r in su.limit && s.occupied[r] < su.limit[r]
       case Begin(p) => s.pcs[p] == Acquiring(|Plan(su, p)|)
       case Cancel(p) => s.pcs[p].Acquiring? && s.pcs[p].k <= |Plan(su, p)|
       case Finish(p) => s.pcs[p].Working?
       case Release(p) => s.pcs[p].Releasing? && s.pcs[p].rest != []
       case End(p) => s.pcs[p] == Releasing([])
  }

  /** Taking a slot fills it; giving one back empties it unless it is empty already. */
  function Apply(su: Setup, s: State, st: Step): State
    requires Enabled(su, s, st)
  {
    match st
    case Acquire(p) =>
      var r := Plan(su, p)[s.pcs[p].k];
      State(s.pcs[p := Acquiring(s.pcs[p].k + 1)], s.occupied[r := s.occupied[r] + 1])
    case Begin(p) => s.(pcs := s.pcs[p := Working])
    case Cancel(p) => s.(pcs := s.pcs[p := Releasing(UndoPlan(su, p, s.pcs[p].k))])
    case Finish(p) => s.(pcs := s.pcs[p := Releasing(ReturnPlan(su, p))])
    case Release(p) =>
      var r := s.pcs[p].rest[0];
      var occupied := if r in s.occupied && s.occupied[r] > 0 then s.occupied[r := s.occupied[r] - 1] else s.occupied;
      State(s.pcs[p := Releasing(s.pcs[p].rest[1..])], occupied)
    case End(p) => s.(pcs := s.pcs[p := Ended])
  }

  predicate Legal(su: Setup, s: State, run: seq<Step>)
    decreases |run|
  {
    run == [] || (Enabled(su, s, run[0]) && Legal(su, Apply(su, s, run[0]), run[1..]))
  }

  function After(su: Setup, s: State, run: seq<Step>): State
    requires Legal(su, s, run)
    decreases |run|
  {
    if run == [] then s else After(su, Apply(su, s, run[0]), run[1..])
  }

  // ---- plans

  /** How often a runner lists a tag. */
  function Uses(su: Setup, p: nat, t: string): nat
    requires p < |su.tags|
  {
    multiset(su.tags[p])[t]
  }

  lemma {:induction false} GuardedCounts(limit: map<Res, nat>, tags: seq<string>, r: Res)
    ensures multiset(Guarded(limit, tags))[r] == if r.Tag? && r in limit then multiset(tags)[r.name] else 0
  {
    if tags != [] {
      var init, last := tags[..|tags| - 1], tags[|tags| - 1];
      GuardedCounts(limit, init, r);
      assert tags == init + [last];
    }
  }

  /** A runner's plan takes the global slot once, and each limited tag as often as the runner lists it. */
  lemma PlanCounts(su: Setup, p: nat, r: Res)
    requires p < |su.tags|
    ensures multiset(Plan(su, p))[r] == if r !in su.limit then 0 else if r.Global? then 1 else Uses(su, p, r.name)
  {
    hide Guarded;
    GuardedCounts(su.limit, Sort(su.tags[p]), r);
  }

  /** What is given back after the work is what was taken, repeated tags included. */
  lemma ReturnsPlan(su: Setup, p: nat)
    requires p < |su.tags|
    ensures multiset(ReturnPlan(su, p)) == multiset(Plan(su, p)) && |ReturnPlan(su, p)| == |Plan(su, p)|
  {
    hide Guarded;
    forall r ensures multiset(ReturnPlan(su, p))[r] == multiset(Plan(su, p))[r] {
      GuardedCounts(su.limit, su.tags[p], r);
      GuardedCounts(su.limit, Sort(su.tags[p]), r);
    }
    SameLength(ReturnPlan(su, p), Plan(su, p));
  }

  lemma GlobalFirst(su: Setup, p: nat)
    requires p < |su.tags|
    ensures |GlobalPart(su.limit)| <= |Plan(su, p)| && |GlobalPart(su.limit)| <= 1
    ensures Plan(su, p)[..|GlobalPart(su.limit)|] == GlobalPart(su.limit)
  {
    hide Guarded;
  }

  /** What is given back after a cancellation is what had been taken. */
  lemma UndoesPlan(su: Setup, p: nat, k: nat)
    requires p < |su.tags| && k <= |Plan(su, p)|
    ensures multiset(UndoPlan(su, p, k)) == multiset(Plan(su, p)[..k]) && |UndoPlan(su, p, k)| == k
  {
    hide Plan, GlobalPart;
    GlobalFirst(su, p);
    var plan, g := Plan(su, p), |GlobalPart(su.limit)|;
    if k > 0 {
      assert plan[..k] == plan[..g] + plan[g..k];
    }
  }

  predicate NotAfter(a: Res, b: Res) {
    a == b || Before(a, b)
  }

  /** Weakly ascending: equal ones stand together. */
  ghost predicate Ascending(s: seq<Res>) {
    forall i, j :: 0 <= i < j < |s| ==> NotAfter(s[i], s[j])
  }

  lemma {:induction false} GuardedAscending(limit: map<Res, nat>, tags: seq<string>)
    requires Sorted(tags)
    ensures Ascending(Guarded(limit, tags))
  {
    if tags != [] {
      var init, last := tags[..|tags| - 1], tags[|tags| - 1];
      GuardedAscending(limit, init);
      var before := Guarded(limit, init);
      forall i | 0 <= i < |before| ensures NotAfter(before[i], Tag(last)) {
        assert before[i] in multiset(before);
        GuardedCounts(limit, init, before[i]);
        var k :| 0 <= k < |init| && init[k] == before[i].name;
        assert Leq(tags[k], tags[|tags| - 1]);
      }
    }
  }

  lemma PlanNames(su: Setup, p: nat, r: Res)
    requires p < |su.tags|
    ensures r in Plan(su, p) <==> r in su.limit && (r.Global? || r.name in su.tags[p])
  {
    hide Plan;
    PlanCounts(su, p, r);
    assert r in Plan(su, p) <==> r in multiset(Plan(su, p));
    assert r.Tag? ==> (r.name in su.tags[p] <==> r.name in multiset(su.tags[p]));
  }

  /** A runner takes the global slot first and then its limited tags in ascending order. */
  lemma PlanAscends(su: Setup, p: nat)
    requires p < |su.tags|
    ensures Ascending(Plan(su, p))
    ensures forall r :: r in Plan(su, p) <==> r in su.limit && (r.Global? || r.name in su.tags[p])
  {
    hide Guarded, Leq;
    SortSorted(su.tags[p]);
    var tail := Guarded(su.limit, Sort(su.tags[p]));
    GuardedAscending(su.limit, Sort(su.tags[p]));
    forall i | 0 <= i < |tail| ensures tail[i].Tag? {
      assert tail[i] in multiset(tail);
      GuardedCounts(su.limit, Sort(su.tags[p]), tail[i]);
    }
    forall r ensures r in Plan(su, p) <==> r in su.limit && (r.Global? || r.name in su.tags[p]) {
      PlanNames(su, p, r);
    }
  }

  // ---- who holds what

  ghost function Held(su: Setup, p: nat, pc: Pc): multiset<Res>
    requires p < |su.tags|
  {
    match pc
    case Acquiring(k) => if k <= |Plan(su, p)| then multiset(Plan(su, p)[..k]) else multiset{}
    case Working => multiset(Plan(su, p))
    case Releasing(rest) => multiset(rest)
    case Ended => multiset{}
  }

  /** Slots of r in the hands of the first n runners. */
  ghost function Holding(su: Setup, pcs: seq<Pc>, r: Res, n: nat): nat
    requires n <= |pcs| == |su.tags|
  {
    if n == 0 then 0 else Holding(su, pcs, r, n - 1) + Held(su, n - 1, pcs[n - 1])[r]
  }

  ghost predicate PcOk(su: Setup, p: nat, pc: Pc)
    requires p < |su.tags|
  {
    && (pc.Acquiring? ==> pc.k <= |Plan(su, p)|)
    && (pc.Releasing? ==> |pc.rest| <= |Plan(su, p)|)
    && forall r :: r in Held(su, p, pc) ==> r in su.limit
  }

  /** Each semaphore's occupancy is the number of its slots in the runners' hands and within its capacity. */
  ghost predicate Inv(su: Setup, s: State) {
    && |s.pcs| == |su.tags|
    && s.occupied.Keys == su.limit.Keys
    && (forall p :: 0 <= p < |s.pcs| ==> PcOk(su, p, s.pcs[p]))
    && (forall r :: r in su.limit ==> s.occupied[r] == Holding(su, s.pcs, r, |s.pcs|) <= su.limit[r])
  }

  lemma {:induction false} NothingHeld(su: Setup, r: Res, n: nat)
    requires n <= |su.tags|
    ensures Holding(su, Init(su).pcs, r, n) == 0
  {
    hide Plan;
    if n > 0 {
      NothingHeld(su, r, n - 1);
      assert Plan(su, n - 1)[..0] == [];
    }
  }

  lemma InitInv(su: Setup)
    ensures Inv(su, Init(su))
  {
    hide Plan, Holding;
    forall p | 0 <= p < |su.tags| ensures PcOk(su, p, Acquiring(0)) {
      assert Plan(su, p)[..0] == [];
    }
    forall r | r in su.limit ensures Holding(su, Init(su).pcs, r, |su.tags|) == 0 {
      NothingHeld(su, r, |su.tags|);
    }
  }

  /** A step of p changes only what p holds. */
  lemma {:induction false} HoldingChange(su: Setup, pcs: seq<Pc>, p: nat, pc: Pc, r: Res, n: nat)
    requires n <= |pcs| == |su.tags| && p < |pcs|
    ensures p < n ==> Holding(su, pcs[p := pc], r, n) + Held(su, p, pcs[p])[r] == Holding(su, pcs, r, n) + Held(su, p, pc)[r]
    ensures n <= p ==> Holding(su, pcs[p := pc], r, n) == Holding(su, pcs, r, n)
  {
    hide Held;
    if n > 0 {
      HoldingChange(su, pcs, p, pc, r, n - 1);
    }
  }

  /** p keeps holding exactly the same slots. */
  lemma SameHeld(su: Setup, s: State, p: nat, pc: Pc)
    requires Inv(su, s) && p < |s.pcs| && PcOk(su, p, pc) && Held(su, p, pc) == Held(su, p, s.pcs[p])
    ensures Inv(su, s.(pcs := s.pcs[p := pc]))
  {
    hide Plan, Held, PcOk, Holding;
    forall r | r in su.limit ensures Holding(su, s.pcs[p := pc], r, |s.pcs|) == Holding(su, s.pcs, r, |s.pcs|) {
      HoldingChange(su, s.pcs, p, pc, r, |s.pcs|);
    }
  }

  /** p comes to hold one slot more. */
  lemma Gains(su: Setup, s: State, p: nat, pc: Pc, r0: Res)
    requires Inv(su, s) && p < |s.pcs| && PcOk(su, p, pc) && r0 in su.limit && s.occupied[r0] < su.limit[r0]
    requires Held(su, p, pc) == Held(su, p, s.pcs[p]) + multiset{r0}
    ensures Inv(su, State(s.pcs[p := pc], s.occupied[r0 := s.occupied[r0] + 1]))
  {
    hide Plan, Held, PcOk, Holding;
    forall r | r in su.limit
      ensures Holding(su, s.pcs[p := pc], r, |s.pcs|) == Holding(su, s.pcs, r, |s.pcs|) + if r == r0 then 1 else 0
    {
      HoldingChange(su, s.pcs, p, pc, r, |s.pcs|);
    }
  }

  lemma {:induction false} HeldCounts(su: Setup, pcs: seq<Pc>, p: nat, r: Res, n: nat)
    requires p < n <= |pcs| == |su.tags|
    ensures Held(su, p, pcs[p])[r] <= Holding(su, pcs, r, n)
  {
    hide Held;
    if p < n - 1 {
      HeldCounts(su, pcs, p, r, n - 1);
    }
  }

  /** p comes to hold one slot less. */
  lemma Loses(su: Setup, s: State, p: nat, pc: Pc, r0: Res)
    requires Inv(su, s) && p < |s.pcs| && PcOk(su, p, pc) && r0 in su.limit
    requires Held(su, p, s.pcs[p]) == Held(su, p, pc) + multiset{r0}
    ensures s.occupied[r0] > 0
    ensures Inv(su, State(s.pcs[p := pc], s.occupied[r0 := s.occupied[r0] - 1]))
  {
    hide Plan, Held, PcOk, Holding;
    HeldCounts(su, s.pcs, p, r0, |s.pcs|);
    forall r | r in su.limit
      ensures Holding(su, s.pcs[p := pc], r, |s.pcs|) == Holding(su, s.pcs, r, |s.pcs|) - if r == r0 then 1 else 0
    {
      HoldingChange(su, s.pcs, p, pc, r, |s.pcs|);
    }
  }

  lemma PcIsOk(su: Setup, s: State, p: nat)
    requires Inv(su, s) && p < |s.pcs|
    ensures |s.pcs| == |su.tags| && PcOk(su, p, s.pcs[p]) && s.occupied.Keys == su.limit.Keys
  {
  }

  lemma OneMoreHeld(su: Setup, p: nat, k: nat)
    requires p < |su.tags| && k < |Plan(su, p)|
    ensures Held(su, p, Acquiring(k + 1)) == Held(su, p, Acquiring(k)) + multiset{Plan(su, p)[k]}
    ensures Plan(su, p)[k] in Plan(su, p)
  {
    hide Plan;
    assert Plan(su, p)[..k + 1] == Plan(su, p)[..k] + [Plan(su, p)[k]];
  }

  lemma AcquireKeeps(su: Setup, s: State, p: nat)
    requires Inv(su, s) && Enabled(su, s, Acquire(p))
    ensures Inv(su, Apply(su, s, Acquire(p)))
  {
    hide Plan, Inv, Holding;
    PcIsOk(su, s, p);
    var k, plan := s.pcs[p].k, Plan(su, p);
    OneMoreHeld(su, p, k);
    Gains(su, s, p, Acquiring(k + 1), plan[k]);
  }

  /** Giving a slot back never finds its semaphore empty, whatever tags are listed. */
  lemma ReleaseKeeps(su: Setup, s: State, p: nat)
    requires Inv(su, s) && Enabled(su, s, Release(p))
    ensures s.pcs[p].rest[0] in s.occupied && s.occupied[s.pcs[p].rest[0]] > 0
    ensures Inv(su, Apply(su, s, Release(p)))
  {
    hide Plan, Inv, Holding;
    PcIsOk(su, s, p);
    var rest := s.pcs[p].rest;
    assert rest == [rest[0]] + rest[1..];
    assert rest[0] in Held(su, p, s.pcs[p]);
    assert multiset(rest) == multiset(rest[1..]) + multiset{rest[0]};
    Loses(su, s, p, Releasing(rest[1..]), rest[0]);
  }

  lemma StepKeeps(su: Setup, s: State, st: Step)
    requires Inv(su, s) && Enabled(su, s, st)
    ensures Inv(su, Apply(su, s, st))
  {
    hide Plan, UndoPlan, ReturnPlan, Inv;
    match st
    case Acquire(p) => AcquireKeeps(su, s, p);
    case Release(p) => ReleaseKeeps(su, s, p);
    case Begin(p) =>
      PcIsOk(su, s, p);
      assert Plan(su, p)[..|Plan(su, p)|] == Plan(su, p);
      SameHeld(su, s, p, Working);
    case Cancel(p) =>
      PcIsOk(su, s, p);
      UndoesPlan(su, p, s.pcs[p].k);
      SameHeld(su, s, p, Releasing(UndoPlan(su, p, s.pcs[p].k)));
    case Finish(p) =>
      PcIsOk(su, s, p);
      ReturnsPlan(su, p);
      SameHeld(su, s, p, Releasing(ReturnPlan(su, p)));
    case End(p) =>
      PcIsOk(su, s, p);
      SameHeld(su, s, p, Ended);
  }

  /** In every run, cancellations and repeated tags included, occupancy is what the runners hold and never exceeds the
      limit. */
  lemma {:induction false} OccupancyIsHolders(su: Setup, s: State, run: seq<Step>)
    requires Inv(su, s) && Legal(su, s, run)
    ensures Inv(su, After(su, s, run))
    decreases |run|
  {
    hide Inv, Enabled;
    if run != [] {
      StepKeeps(su, s, run[0]);
      OccupancyIsHolders(su, Apply(su, s, run[0]), run[1..]);
    }
  }

  // ---- when a run can wedge

  ghost predicate CanMove(su: Setup, s: State) {
    exists st :: Enabled(su, s, st) && !st.Cancel?
  }

  /** Some runner has not ended and, cancellations aside, nobody can move. */
  ghost predicate Deadlocked(su: Setup, s: State) {
    (exists p :: 0 <= p < |s.pcs| && !s.pcs[p].Ended?) && !CanMove(su, s)
  }

  /** How often the runners in R among the first n list a tag, the first m times in each runner not counted. */
  function Demand(su: Setup, R: set<nat>, t: string, m: nat, n: nat): nat
    requires n <= |su.tags|
  {
    if n == 0 then 0
    else
      Demand(su, R, t, m, n - 1)
      + if n - 1 in R && Uses(su, n - 1, t) > m then Uses(su, n - 1, t) - m else 0
  }

  /** The runners in R, all of which list t, fit beside each other up to t: in number under the global limit, and with
      all their uses of every tag before t under its limit. But they cannot all finish with t: leaving each one use short
      already takes every slot of it. */
  ghost predicate Wedges(su: Setup, t: string, R: set<nat>) {
    && Tag(t) in su.limit
    && R != {} && (forall p :: p in R ==> p < |su.tags| && t in su.tags[p])
    && (Global in su.limit ==> |R| <= su.limit[Global])
    && (forall u :: Tag(u) in su.limit && Less(u, t) ==> Demand(su, R, u, 0, |su.tags|) <= su.limit[Tag(u)])
    && Demand(su, R, t, 1, |su.tags|) >= su.limit[Tag(t)]
  }

  ghost predicate CanWedge(su: Setup) {
    exists t, R :: Wedges(su, t, R)
  }

  // ---- a wedged state shows the condition

  /** A runner that cannot move waits for a full semaphore. */
  lemma BlockedWaits(su: Setup, s: State, p: nat)
    requires Inv(su, s) && p < |s.pcs| && !s.pcs[p].Ended? && !CanMove(su, s)
    ensures s.pcs[p].Acquiring? && s.pcs[p].k < |Plan(su, p)|
    ensures var r := Plan(su, p)[s.pcs[p].k]; r in su.limit && Holding(su, s.pcs, r, |s.pcs|) == su.limit[r]
  {
    hide Plan, Holding;
    PcIsOk(su, s, p);
    assert !Enabled(su, s, Acquire(p)) && !Enabled(su, s, Begin(p)) && !Enabled(su, s, Finish(p));
    assert !Enabled(su, s, Release(p)) && !Enabled(su, s, End(p));
    PlanAscends(su, p);
    assert Plan(su, p)[s.pcs[p].k] in Plan(su, p);
  }

  lemma {:induction false} SomeoneHolds(su: Setup, pcs: seq<Pc>, r: Res, n: nat) returns (h: nat)
    requires n <= |pcs| == |su.tags| && Holding(su, pcs, r, n) > 0
    ensures h < n && Held(su, h, pcs[h])[r] > 0
  {
    hide Held;
    if Held(su, n - 1, pcs[n - 1])[r] > 0 {
      h := n - 1;
    } else {
      h := SomeoneHolds(su, pcs, r, n - 1);
    }
  }

  /** What p waits for. */
  ghost predicate WaitsFor(su: Setup, pcs: seq<Pc>, p: nat, r: Res) {
    p < |pcs| == |su.tags| && pcs[p].Acquiring? && pcs[p].k < |Plan(su, p)| && Plan(su, p)[pcs[p].k] == r
  }

  /** The holder of a slot that cannot move waits for that slot again or for a later one. */
  lemma HolderWaits(su: Setup, s: State, h: nat, r: Res)
    requires Inv(su, s) && !CanMove(su, s) && h < |s.pcs| && Held(su, h, s.pcs[h])[r] > 0
    ensures s.pcs[h].Acquiring? && s.pcs[h].k < |Plan(su, h)| && NotAfter(r, Plan(su, h)[s.pcs[h].k])
    ensures WaitsFor(su, s.pcs, h, Plan(su, h)[s.pcs[h].k]) && r in Plan(su, h)[..s.pcs[h].k]
  {
    hide Plan, Holding, CanMove;
    BlockedWaits(su, s, h);
    PlanAscends(su, h);
    assert r in multiset(Plan(su, h)[..s.pcs[h].k]);
    var i :| 0 <= i < s.pcs[h].k && Plan(su, h)[..s.pcs[h].k][i] == r;
    assert NotAfter(Plan(su, h)[i], Plan(su, h)[s.pcs[h].k]);
  }

  /** Nobody waits for the global slot in a deadlock: its holders wait for tags. */
  lemma GlobalMoves(su: Setup, s: State, p: nat) returns (h: nat, t: string)
    requires ValidSetup(su) && Inv(su, s) && !CanMove(su, s) && p < |s.pcs| && !s.pcs[p].Ended?
    ensures WaitsFor(su, s.pcs, h, Tag(t))
  {
    hide Plan, Holding, CanMove, Inv;
    InvSizes(su, s);
    BlockedWaits(su, s, p);
    var r := Plan(su, p)[s.pcs[p].k];
    h := p;
    if r.Global? {
      h := SomeoneHolds(su, s.pcs, Global, |s.pcs|);
      HolderWaits(su, s, h, Global);
      OneGlobal(su, h, s.pcs[h].k);
    }
    t := Plan(su, h)[s.pcs[h].k].name;
  }

  lemma InvSizes(su: Setup, s: State)
    requires Inv(su, s)
    ensures |s.pcs| == |su.tags|
  {
  }

  lemma OneGlobal(su: Setup, p: nat, k: nat)
    requires p < |su.tags| && k < |Plan(su, p)| && Global in Plan(su, p)[..k]
    ensures Plan(su, p)[k].Tag?
  {
    hide Plan;
    var plan := Plan(su, p);
    PlanCounts(su, p, Global);
    assert plan == plan[..k] + [plan[k]] + plan[k + 1..];
    assert multiset(plan[..k])[Global] >= 1;
  }

  ghost function WantedTags(su: Setup, pcs: seq<Pc>): set<string>
    requires |pcs| == |su.tags|
  {
    set p: nat | p < |pcs| && pcs[p].Acquiring? && pcs[p].k < |Plan(su, p)| && Plan(su, p)[pcs[p].k].Tag?
      :: Plan(su, p)[pcs[p].k].name
  }

  lemma Wanted(su: Setup, pcs: seq<Pc>, t: string)
    requires |pcs| == |su.tags|
    ensures t in WantedTags(su, pcs) <==> exists p: nat :: WaitsFor(su, pcs, p, Tag(t))
  {
    hide Plan;
    if t in WantedTags(su, pcs) {
      var p: nat :| p < |pcs| && pcs[p].Acquiring? && pcs[p].k < |Plan(su, p)| && Plan(su, p)[pcs[p].k].Tag? && Plan(su, p)[pcs[p].k].name == t;
      assert WaitsFor(su, pcs, p, Tag(t));
    }
  }

  /** Those who wait for t. */
  ghost function Waiters(su: Setup, pcs: seq<Pc>, t: string): set<nat> {
    set p: nat | p < |pcs| && WaitsFor(su, pcs, p, Tag(t))
  }

  lemma BeforeOnce(a: Res, b: Res)
    requires Before(a, b)
    ensures a != b && !Before(b, a) && !NotAfter(b, a)
  {
    if a.Tag? {
      LessAsymmetric(a.name, b.name);
    }
  }

  /** In an ascending list nothing before its k-th element comes at k or later. */
  lemma {:induction false} NoneLater(s: seq<Res>, k: nat, r: Res)
    requires Ascending(s) && k < |s| && Before(r, s[k])
    ensures multiset(s[..k])[r] == multiset(s)[r]
  {
    hide Before;
    var tail := s[k..];
    forall i | 0 <= i < |tail| ensures tail[i] != r {
      assert NotAfter(s[k], s[k + i]);
      BeforeOnce(r, s[k]);
    }
    assert s == s[..k] + tail;
    assert multiset(tail)[r] == 0;
  }

  /** Whoever waits for t holds the global slot, all its uses of the tags before t, and not all its uses of t. */
  lemma WaiterHolds(su: Setup, pcs: seq<Pc>, p: nat, t: string, r: Res)
    requires WaitsFor(su, pcs, p, Tag(t))
    ensures Held(su, p, pcs[p])[Tag(t)] < Uses(su, p, t) && t in su.tags[p] && Tag(t) in su.limit
    ensures r in su.limit && Before(r, Tag(t)) ==> Held(su, p, pcs[p])[r] == if r.Global? then 1 else Uses(su, p, r.name)
  {
    hide Plan;
    var plan, k := Plan(su, p), pcs[p].k;
    PlanAscends(su, p);
    PlanCounts(su, p, Tag(t));
    PlanCounts(su, p, r);
    assert plan[k] in plan;
    assert plan == plan[..k] + [plan[k]] + plan[k + 1..];
    if Before(r, Tag(t)) {
      NoneLater(plan, k, r);
    }
  }

  lemma {:induction false} HeldWithinDemand(su: Setup, pcs: seq<Pc>, R: set<nat>, t: string, n: nat)
    requires n <= |pcs| == |su.tags|
    requires forall p :: 0 <= p < n && p in R ==> Held(su, p, pcs[p])[Tag(t)] < Uses(su, p, t)
    requires forall p :: 0 <= p < n && p !in R ==> Held(su, p, pcs[p])[Tag(t)] == 0
    ensures Holding(su, pcs, Tag(t), n) <= Demand(su, R, t, 1, n)
  {
    hide Held;
    if n > 0 {
      HeldWithinDemand(su, pcs, R, t, n - 1);
    }
  }

  lemma {:induction false} DemandIsHeld(su: Setup, pcs: seq<Pc>, R: set<nat>, u: string, n: nat)
    requires n <= |pcs| == |su.tags|
    requires forall p :: 0 <= p < n && p in R ==> Held(su, p, pcs[p])[Tag(u)] == Uses(su, p, u)
    ensures Demand(su, R, u, 0, n) <= Holding(su, pcs, Tag(u), n)
  {
    hide Held;
    if n > 0 {
      DemandIsHeld(su, pcs, R, u, n - 1);
    }
  }

  lemma {:induction false} EachHoldsOne(su: Setup, pcs: seq<Pc>, R: set<nat>, r: Res, n: nat)
    requires n <= |pcs| == |su.tags| && forall p :: p in R ==> p < n && Held(su, p, pcs[p])[r] >= 1
    ensures |R| <= Holding(su, pcs, r, n)
  {
    hide Held;
    if n == 0 {
      assert R == {};
    } else {
      EachHoldsOne(su, pcs, R - {n - 1}, r, n - 1);
    }
  }

  /** A deadlock shows the condition: take the greatest tag anyone waits for, and those who wait for it. */
  lemma DeadlockWedges(su: Setup, s: State)
    requires ValidSetup(su) && Inv(su, s) && Deadlocked(su, s)
    ensures CanWedge(su)
  {
    hide Plan, Holding, CanMove, Inv, Held, Demand, WantedTags, Before, NotAfter;
    InvSizes(su, s);
    var p0 :| 0 <= p0 < |s.pcs| && !s.pcs[p0].Ended?;
    var h, t0 := GlobalMoves(su, s, p0);
    Wanted(su, s.pcs, t0);
    var t := Greatest(WantedTags(su, s.pcs));
    Wanted(su, s.pcs, t);
    var R := Waiters(su, s.pcs, t);
    var q: nat :| WaitsFor(su, s.pcs, q, Tag(t));
    assert q in R;
    forall p | 0 <= p < |s.pcs| && p !in R ensures Held(su, p, s.pcs[p])[Tag(t)] == 0 {
      if Held(su, p, s.pcs[p])[Tag(t)] > 0 {
        WaitersAreHolders(su, s, t, p);
      }
    }
    forall p | p in R
      ensures Held(su, p, s.pcs[p])[Tag(t)] < Uses(su, p, t) && t in su.tags[p] && Tag(t) in su.limit
    {
      WaiterHolds(su, s.pcs, p, t, Tag(t));
    }
    HeldWithinDemand(su, s.pcs, R, t, |s.pcs|);
    WaitedIsFull(su, s, q, Tag(t));
    if Global in su.limit {
      forall p | p in R ensures Held(su, p, s.pcs[p])[Global] >= 1 {
        WaiterHolds(su, s.pcs, p, t, Global);
        GlobalIsFirst(t);
      }
      EachHoldsOne(su, s.pcs, R, Global, |s.pcs|);
      Within(su, s, Global);
    }
    forall u | Tag(u) in su.limit && Less(u, t) ensures Demand(su, R, u, 0, |su.tags|) <= su.limit[Tag(u)] {
      forall p | 0 <= p < |s.pcs| && p in R ensures Held(su, p, s.pcs[p])[Tag(u)] == Uses(su, p, u) {
        WaiterHolds(su, s.pcs, p, t, Tag(u));
        TagsOrder(u, t);
      }
      DemandIsHeld(su, s.pcs, R, u, |s.pcs|);
      Within(su, s, Tag(u));
    }
    assert Wedges(su, t, R);
  }

  lemma GlobalIsFirst(t: string)
    ensures Before(Global, Tag(t))
  {
  }

  lemma TagsOrder(u: string, t: string)
    ensures Before(Tag(u), Tag(t)) <==> Less(u, t)
  {
  }

  lemma Within(su: Setup, s: State, r: Res)
    requires Inv(su, s) && r in su.limit
    ensures |s.pcs| == |su.tags| && Holding(su, s.pcs, r, |s.pcs|) <= su.limit[r]
  {
  }

  lemma WaitedIsFull(su: Setup, s: State, p: nat, r: Res)
    requires Inv(su, s) && !CanMove(su, s) && WaitsFor(su, s.pcs, p, r)
    ensures r in su.limit && Holding(su, s.pcs, r, |s.pcs|) == su.limit[r]
  {
    hide Plan, Holding, CanMove;
    BlockedWaits(su, s, p);
  }

  /** When t is the greatest tag waited for, whoever holds it waits for it. */
  lemma WaitersAreHolders(su: Setup, s: State, t: string, p: nat)
    requires Inv(su, s) && !CanMove(su, s) && |s.pcs| == |su.tags| && p < |s.pcs| && Held(su, p, s.pcs[p])[Tag(t)] > 0
    requires forall u :: u in WantedTags(su, s.pcs) ==> Leq(u, t)
    ensures p in Waiters(su, s.pcs, t)
  {
    hide Plan, Holding, CanMove, Inv, Held, WantedTags;
    HolderWaits(su, s, p, Tag(t));
    var r := Plan(su, p)[s.pcs[p].k];
    if r != Tag(t) {
      Wanted(su, s.pcs, r.name);
      LessAsymmetric(t, r.name);
    }
  }

  // ---- every run is finite

  ghost function Work(su: Setup, p: nat, pc: Pc): nat
    requires p < |su.tags|
  {
    var n := |Plan(su, p)|;
    match pc
    case Acquiring(k) => if k <= n then 2 * n - k + 3 else 0
    case Working => n + 2
    case Releasing(rest) => |rest| + 1
    case Ended => 0
  }

  ghost function TotalWork(su: Setup, pcs: seq<Pc>, n: nat): nat
    requires n <= |pcs| == |su.tags|
  {
    if n == 0 then 0 else TotalWork(su, pcs, n - 1) + Work(su, n - 1, pcs[n - 1])
  }

  lemma {:induction false} WorkChange(su: Setup, pcs: seq<Pc>, n: nat, p: nat, pc: Pc)
    requires n <= |pcs| == |su.tags| && p < |pcs|
    ensures p < n ==> TotalWork(su, pcs[p := pc], n) + Work(su, p, pcs[p]) == TotalWork(su, pcs, n) + Work(su, p, pc)
    ensures n <= p ==> TotalWork(su, pcs[p := pc], n) == TotalWork(su, pcs, n)
  {
    hide Work;
    if n > 0 {
      WorkChange(su, pcs, n - 1, p, pc);
    }
  }

  lemma StepWorks(su: Setup, s: State, st: Step)
    requires Inv(su, s) && Enabled(su, s, st)
    ensures TotalWork(su, Apply(su, s, st).pcs, |su.tags|) < TotalWork(su, s.pcs, |su.tags|)
  {
    hide Plan, UndoPlan, ReturnPlan, TotalWork;
    var p := st.p;
    PcIsOk(su, s, p);
    ReturnsPlan(su, p);
    if st.Cancel? {
      UndoesPlan(su, p, s.pcs[p].k);
    }
    var pc := Apply(su, s, st).pcs[p];
    assert Apply(su, s, st).pcs == s.pcs[p := pc];
    WorkChange(su, s.pcs, |su.tags|, p, pc);
  }

  lemma {:induction false} RunsAreFinite(su: Setup, s: State, run: seq<Step>)
    requires Inv(su, s) && Legal(su, s, run)
    ensures |run| <= TotalWork(su, s.pcs, |su.tags|)
    decreases |run|
  {
    if run != [] {
      StepWorks(su, s, run[0]);
      StepKeeps(su, s, run[0]);
      RunsAreFinite(su, Apply(su, s, run[0]), run[1..]);
    }
  }

  // ---- the condition leads to a wedged state

  lemma {:induction false} RunOn(su: Setup, s: State, a: seq<Step>, b: seq<Step>)
    requires Legal(su, s, a) && Legal(su, After(su, s, a), b)
    ensures Legal(su, s, a + b) && After(su, s, a + b) == After(su, After(su, s, a), b)
    decreases |a|
  {
    hide Enabled, Apply;
    if a == [] {
      assert a + b == b;
    } else {
      var tail := a[1..];
      assert (a + b)[1..] == tail + b && (a + b)[0] == a[0];
      RunOn(su, Apply(su, s, a[0]), tail, b);
    }
  }

  lemma RunOne(su: Setup, s: State, st: Step)
    requires Enabled(su, s, st)
    ensures Legal(su, s, [st]) && After(su, s, [st]) == Apply(su, s, st)
  {
    hide Enabled;
    assert [st][1..] == [];
    assert After(su, Apply(su, s, st), []) == Apply(su, s, st);
  }

  /** p can take the slot it waits for. */
  ghost predicate Room(su: Setup, pcs: seq<Pc>, p: nat, j: nat)
    requires |pcs| == |su.tags| && p < |pcs| && j < |Plan(su, p)|
  {
    Plan(su, p)[j] in su.limit && Holding(su, pcs[p := Acquiring(j)], Plan(su, p)[j], |pcs|) < su.limit[Plan(su, p)[j]]
  }

  lemma RoomEnables(su: Setup, s: State, p: nat)
    requires Inv(su, s) && p < |s.pcs| && s.pcs[p].Acquiring? && s.pcs[p].k < |Plan(su, p)| && Room(su, s.pcs, p, s.pcs[p].k)
    ensures Enabled(su, s, Acquire(p)) && Inv(su, Apply(su, s, Acquire(p)))
    ensures Apply(su, s, Acquire(p)).pcs == s.pcs[p := Acquiring(s.pcs[p].k + 1)]
  {
    hide Plan, Holding;
    assert s.pcs[p := Acquiring(s.pcs[p].k)] == s.pcs;
    AcquireKeeps(su, s, p);
  }

  /** p takes one slot after another while there is room. */
  lemma {:induction false} Advance(su: Setup, s: State, p: nat, m: nat) returns (run: seq<Step>)
    requires Inv(su, s) && p < |s.pcs| && s.pcs[p].Acquiring? && s.pcs[p].k <= m <= |Plan(su, p)|
    requires forall j :: s.pcs[p].k <= j < m ==> Room(su, s.pcs, p, j)
    ensures Legal(su, s, run) && Inv(su, After(su, s, run)) && After(su, s, run).pcs == s.pcs[p := Acquiring(m)]
    decreases m - s.pcs[p].k
  {
    hide Plan, Holding, Enabled, Inv, Room;
    InvSizes(su, s);
    if s.pcs[p].k == m {
      run := [];
      assert s.pcs[p := Acquiring(m)] == s.pcs;
    } else {
      RoomEnables(su, s, p);
      RunOne(su, s, Acquire(p));
      var next := Apply(su, s, Acquire(p));
      forall j | next.pcs[p].k <= j < m ensures Room(su, next.pcs, p, j) {
        SameRoom(su, s.pcs, next.pcs[p], p, j);
      }
      var rest := Advance(su, next, p, m);
      run := [Acquire(p)] + rest;
      RunOn(su, s, [Acquire(p)], rest);
    }
  }

  lemma SameRoom(su: Setup, pcs: seq<Pc>, pc: Pc, p: nat, j: nat)
    requires |pcs| == |su.tags| && p < |pcs| && j < |Plan(su, p)| && Room(su, pcs, p, j)
    ensures Room(su, pcs[p := pc], p, j)
  {
    hide Plan, Holding;
    assert pcs[p := pc][p := Acquiring(j)] == pcs[p := Acquiring(j)];
  }

  /** How many slots a runner takes before it comes to t. */
  function Lead(s: seq<Res>, t: string): nat {
    if s == [] || !Before(s[0], Tag(t)) then 0 else 1 + Lead(s[1..], t)
  }

  lemma ResTotal(a: Res, b: Res)
    ensures a == b || Before(a, b) || Before(b, a)
  {
    if a.Tag? && b.Tag? {
      LessTotal(a.name, b.name);
    }
  }

  lemma TailAscends(s: seq<Res>)
    requires Ascending(s) && s != []
    ensures Ascending(s[1..])
  {
    forall i, j | 0 <= i < j < |s[1..]| ensures NotAfter(s[1..][i], s[1..][j]) {
      assert NotAfter(s[i + 1], s[j + 1]);
    }
  }

  /** An ascending list has what is before t, then every t, then the rest. */
  lemma {:induction false} LeadIs(s: seq<Res>, t: string)
    requires Ascending(s)
    ensures Lead(s, t) + multiset(s)[Tag(t)] <= |s|
    ensures forall j :: 0 <= j < Lead(s, t) ==> Before(s[j], Tag(t))
    ensures forall j :: Lead(s, t) <= j < Lead(s, t) + multiset(s)[Tag(t)] ==> s[j] == Tag(t)
    decreases |s|
  {
    hide Before;
    if s != [] {
      var tail := s[1..];
      assert s == [s[0]] + tail;
      TailAscends(s);
      LeadIs(tail, t);
      assert tail != [] ==> NotAfter(s[0], s[1]);
      ResTotal(s[0], Tag(t));
      if Before(s[0], Tag(t)) {
        BeforeOnce(s[0], Tag(t));
      } else if s[0] == Tag(t) {
        if tail != [] {
          NotBeforeAfter(s[0], s[1]);
        }
      } else {
        NoneAtAll(s, Tag(t));
      }
    }
  }

  lemma NotBeforeAfter(a: Res, b: Res)
    requires NotAfter(a, b)
    ensures !Before(b, a)
  {
    hide Before;
    if Before(b, a) {
      BeforeOnce(b, a);
    }
  }

  lemma NoneAtAll(s: seq<Res>, r: Res)
    requires Ascending(s) && s != [] && Before(r, s[0])
    ensures multiset(s)[r] == 0
  {
    hide Before;
    BeforeOnce(r, s[0]);
    forall i | 0 <= i < |s| ensures s[i] != r {
      assert i > 0 ==> NotAfter(s[0], s[i]);
    }
  }

  ghost function LeadOf(su: Setup, p: nat, t: string): nat
    requires p < |su.tags|
  {
    Lead(Plan(su, p), t)
  }

  /** What a runner holds that has gone i uses of t beyond its earlier tags. */
  lemma LeadHolds(su: Setup, p: nat, t: string, i: nat)
    requires p < |su.tags| && Tag(t) in su.limit && i <= Uses(su, p, t)
    ensures LeadOf(su, p, t) + i <= |Plan(su, p)|
    ensures Held(su, p, Acquiring(LeadOf(su, p, t) + i))[Tag(t)] == i
    ensures i < Uses(su, p, t) ==> LeadOf(su, p, t) + i < |Plan(su, p)| && Plan(su, p)[LeadOf(su, p, t) + i] == Tag(t)
    decreases i
  {
    hide Plan, Before;
    var plan := Plan(su, p);
    PlanAscends(su, p);
    PlanCounts(su, p, Tag(t));
    LeadIs(plan, t);
    if i == 0 {
      var lead := plan[..Lead(plan, t)];
      forall j | 0 <= j < |lead| ensures lead[j] != Tag(t) {
        BeforeOnce(lead[j], Tag(t));
      }
    } else {
      LeadHolds(su, p, t, i - 1);
      OneMoreHeld(su, p, LeadOf(su, p, t) + i - 1);
    }
  }

  /** The first i runners of R have taken everything before t, nobody else anything. */
  ghost function Collected(su: Setup, t: string, R: set<nat>, i: nat): seq<Pc> {
    seq(|su.tags|, q requires 0 <= q < |su.tags| => if q < i && q in R then Acquiring(LeadOf(su, q, t)) else Acquiring(0))
  }

  lemma {:induction false} CollectedTag(su: Setup, t: string, R: set<nat>, i: nat, u: string, n: nat)
    requires i <= |su.tags| && n <= |su.tags|
    ensures Holding(su, Collected(su, t, R, i), Tag(u), n) <= Demand(su, R, u, 0, if n < i then n else i)
  {
    hide Plan, LeadOf, Held, Uses;
    if n > 0 {
      CollectedTag(su, t, R, i, u, n - 1);
      HeldAtMost(su, n - 1, Collected(su, t, R, i)[n - 1], u);
      HeldNone(su, n - 1);
    }
  }

  lemma HeldAtMost(su: Setup, p: nat, pc: Pc, u: string)
    requires p < |su.tags| && pc.Acquiring?
    ensures Held(su, p, pc)[Tag(u)] <= Uses(su, p, u)
  {
    hide Plan;
    PlanCounts(su, p, Tag(u));
    if pc.k <= |Plan(su, p)| {
      assert Plan(su, p) == Plan(su, p)[..pc.k] + Plan(su, p)[pc.k..];
    }
  }

  lemma HeldNone(su: Setup, p: nat)
    requires p < |su.tags|
    ensures Held(su, p, Acquiring(0)) == multiset{}
  {
    hide Plan;
    assert Plan(su, p)[..0] == [];
  }

  ghost function Picked(R: set<nat>, i: nat): set<nat> {
    set q | q in R && q < i
  }

  lemma PickedNext(R: set<nat>, i: nat)
    ensures |Picked(R, i + 1)| == |Picked(R, i)| + if i in R then 1 else 0
  {
    if i in R {
      assert Picked(R, i + 1) == Picked(R, i) + {i};
    } else {
      assert Picked(R, i + 1) == Picked(R, i);
    }
  }

  lemma PickedWithin(R: set<nat>, i: nat)
    requires i in R
    ensures |Picked(R, i)| < |R|
  {
    Graph.Smaller(Picked(R, i), R - {i});
  }

  lemma {:induction false} CollectedGlobal(su: Setup, t: string, R: set<nat>, i: nat, n: nat)
    requires i <= |su.tags| && n <= |su.tags|
    ensures Holding(su, Collected(su, t, R, i), Global, n) <= |Picked(R, if n < i then n else i)|
  {
    hide Plan, LeadOf, Held, Picked;
    if n > 0 {
      CollectedGlobal(su, t, R, i, n - 1);
      HeldNone(su, n - 1);
      OneGlobalHeld(su, n - 1, Collected(su, t, R, i)[n - 1]);
      PickedNext(R, n - 1);
    }
  }

  lemma OneGlobalHeld(su: Setup, p: nat, pc: Pc)
    requires p < |su.tags| && pc.Acquiring?
    ensures Held(su, p, pc)[Global] <= 1
  {
    hide Plan;
    PlanCounts(su, p, Global);
    if pc.k <= |Plan(su, p)| {
      assert Plan(su, p) == Plan(su, p)[..pc.k] + Plan(su, p)[pc.k..];
    }
  }

  lemma AcquiringHolds(su: Setup, pcs: seq<Pc>, p: nat, j: nat, r: Res)
    requires |pcs| == |su.tags| && p < |pcs|
    ensures Holding(su, pcs[p := Acquiring(j)], r, |pcs|) + Held(su, p, pcs[p])[r]
            == Holding(su, pcs, r, |pcs|) + Held(su, p, Acquiring(j))[r]
  {
    hide Held;
    HoldingChange(su, pcs, p, Acquiring(j), r, |pcs|);
  }

  lemma {:induction false} DemandGrows(su: Setup, R: set<nat>, t: string, m: nat, i: nat, n: nat)
    requires i <= n <= |su.tags|
    ensures Demand(su, R, t, m, i) <= Demand(su, R, t, m, n)
    decreases n
  {
    if i < n {
      DemandGrows(su, R, t, m, i, n - 1);
    }
  }

  /** Before t there is room for every runner of R in turn. */
  lemma CollectRoom(su: Setup, t: string, R: set<nat>, i: nat, j: nat)
    requires Wedges(su, t, R) && i in R && j < LeadOf(su, i, t)
    ensures j < |Plan(su, i)| && Room(su, Collected(su, t, R, i), i, j)
  {
    hide Plan, Held, Holding, Demand, Wedges, Before;
    WedgesMeans(su, t, R, i);
    PlanAscends(su, i);
    LeadIs(Plan(su, i), t);
    var r, pcs := Plan(su, i)[j], Collected(su, t, R, i);
    assert r in Plan(su, i) && Before(r, Tag(t));
    AcquiringHolds(su, pcs, i, j, r);
    HeldNone(su, i);
    OneMoreHeld(su, i, j);
    assert Held(su, i, Acquiring(j + 1))[r] == Held(su, i, Acquiring(j))[r] + 1;
    if r.Global? {
      CollectedGlobal(su, t, R, i, |su.tags|);
      OneGlobalHeld(su, i, Acquiring(j + 1));
      PickedWithin(R, i);
    } else {
      TagsOrder(r.name, t);
      CollectedTag(su, t, R, i, r.name, |su.tags|);
      HeldAtMost(su, i, Acquiring(j + 1), r.name);
      DemandNext(su, R, r.name, 0, i);
      DemandGrows(su, R, r.name, 0, i + 1, |su.tags|);
      WedgesFits(su, t, R, r.name);
    }
  }

  lemma DemandNext(su: Setup, R: set<nat>, t: string, m: nat, i: nat)
    requires i < |su.tags|
    ensures i in R && Uses(su, i, t) > m ==> Demand(su, R, t, m, i + 1) == Demand(su, R, t, m, i) + Uses(su, i, t) - m
    ensures !(i in R && Uses(su, i, t) > m) ==> Demand(su, R, t, m, i + 1) == Demand(su, R, t, m, i)
  {
  }

  lemma WedgesMeans(su: Setup, t: string, R: set<nat>, i: nat)
    requires Wedges(su, t, R) && i in R
    ensures Tag(t) in su.limit && i < |su.tags| && Uses(su, i, t) >= 1
    ensures Global in su.limit ==> |R| <= su.limit[Global]
    ensures Demand(su, R, t, 1, |su.tags|) >= su.limit[Tag(t)]
  {
    hide Demand;
    assert t in multiset(su.tags[i]);
  }

  lemma WedgesFits(su: Setup, t: string, R: set<nat>, u: string)
    requires Wedges(su, t, R) && Tag(u) in su.limit && Less(u, t)
    ensures Demand(su, R, u, 0, |su.tags|) <= su.limit[Tag(u)]
  {
    hide Demand;
  }

  /** First stage: the runners of R take everything before t, one runner after another. */
  lemma {:induction false} Collect(su: Setup, t: string, R: set<nat>, i: nat) returns (run: seq<Step>)
    requires Wedges(su, t, R) && i <= |su.tags|
    ensures Legal(su, Init(su), run) && Inv(su, After(su, Init(su), run))
    ensures After(su, Init(su), run).pcs == Collected(su, t, R, i)
  {
    hide Plan, Holding, Enabled, Inv, Room, Wedges, LeadOf;
    if i == 0 {
      run := [];
      InitInv(su);
    } else {
      var p := i - 1;
      var before := Collect(su, t, R, p);
      var s := After(su, Init(su), before);
      if p in R {
        LeadFits(su, p, t);
        forall j: nat | j < LeadOf(su, p, t) ensures Room(su, s.pcs, p, j) {
          CollectRoom(su, t, R, p, j);
        }
        var more := Advance(su, s, p, LeadOf(su, p, t));
        run := before + more;
        RunOn(su, Init(su), before, more);
        assert s.pcs[p := Acquiring(LeadOf(su, p, t))] == Collected(su, t, R, i);
      } else {
        run := before;
        assert Collected(su, t, R, i) == Collected(su, t, R, p);
      }
    }
  }

  lemma LeadFits(su: Setup, p: nat, t: string)
    requires p < |su.tags|
    ensures LeadOf(su, p, t) <= |Plan(su, p)|
  {
    hide Plan;
    PlanAscends(su, p);
    LeadIs(Plan(su, p), t);
  }

  /** Slots of t the first i runners of R take if each stays one use short and they stop when it is full. */
  ghost function Taken(su: Setup, t: string, R: set<nat>, i: nat): nat
    requires Tag(t) in su.limit && i <= |su.tags|
  {
    if Demand(su, R, t, 1, i) < su.limit[Tag(t)] then Demand(su, R, t, 1, i) else su.limit[Tag(t)]
  }

  lemma TakenNext(su: Setup, t: string, R: set<nat>, i: nat)
    requires Tag(t) in su.limit && i < |su.tags|
    ensures 0 <= Taken(su, t, R, i + 1) - Taken(su, t, R, i) && Taken(su, t, R, i + 1) <= su.limit[Tag(t)]
    ensures if i in R && Uses(su, i, t) >= 1 then Taken(su, t, R, i + 1) - Taken(su, t, R, i) < Uses(su, i, t)
            else Taken(su, t, R, i + 1) == Taken(su, t, R, i)
  {
    DemandNext(su, R, t, 1, i);
    hide Demand;
  }

  /** Where q stands when the first i runners of R have taken their share of t. */
  ghost function FilledAt(su: Setup, t: string, R: set<nat>, i: nat, q: nat): Pc
    requires Tag(t) in su.limit && i <= |su.tags| && q < |su.tags|
  {
    if q !in R then Acquiring(0)
    else if q < i && Taken(su, t, R, q + 1) > Taken(su, t, R, q) then
      Acquiring(LeadOf(su, q, t) + Taken(su, t, R, q + 1) - Taken(su, t, R, q))
    else Acquiring(LeadOf(su, q, t))
  }

  ghost function Filled(su: Setup, t: string, R: set<nat>, i: nat): seq<Pc>
    requires Tag(t) in su.limit && i <= |su.tags|
  {
    seq(|su.tags|, q requires 0 <= q < |su.tags| => FilledAt(su, t, R, i, q))
  }

  /** In the second stage a runner of R has its share of t and waits for another. */
  lemma FilledHolds(su: Setup, t: string, R: set<nat>, i: nat, q: nat)
    requires Wedges(su, t, R) && i <= |su.tags| && q < |su.tags| && Tag(t) in su.limit
    ensures Held(su, q, FilledAt(su, t, R, i, q))[Tag(t)] == if q < i then Taken(su, t, R, q + 1) - Taken(su, t, R, q) else 0
    ensures q in R ==> FilledAt(su, t, R, i, q).k < |Plan(su, q)| && Plan(su, q)[FilledAt(su, t, R, i, q).k] == Tag(t)
  {
    hide Plan, Held, Demand, LeadOf, Wedges, Taken;
    TakenNext(su, t, R, q);
    HeldNone(su, q);
    if q in R {
      WedgesMeans(su, t, R, q);
      LeadHolds(su, q, t, 0);
      LeadHolds(su, q, t, Taken(su, t, R, q + 1) - Taken(su, t, R, q));
    }
  }

  lemma {:induction false} FilledTag(su: Setup, t: string, R: set<nat>, i: nat, n: nat)
    requires Wedges(su, t, R) && i <= |su.tags| && n <= |su.tags| && Tag(t) in su.limit
    ensures Holding(su, Filled(su, t, R, i), Tag(t), n) == Taken(su, t, R, if n < i then n else i)
  {
    hide Plan, Held, FilledAt, Wedges;
    if n > 0 {
      FilledTag(su, t, R, i, n - 1);
      FilledHolds(su, t, R, i, n - 1);
      TakenNext(su, t, R, n - 1);
    }
  }

  /** There is room for a runner's share of t. */
  lemma FillRoom(su: Setup, t: string, R: set<nat>, i: nat, j: nat)
    requires Wedges(su, t, R) && i in R && i < |su.tags| && Tag(t) in su.limit
    requires LeadOf(su, i, t) <= j < LeadOf(su, i, t) + Taken(su, t, R, i + 1) - Taken(su, t, R, i)
    ensures j < |Plan(su, i)| && Room(su, Filled(su, t, R, i), i, j)
  {
    hide Plan, Held, Holding, Demand, Wedges, LeadOf, Taken;
    var pcs := Filled(su, t, R, i);
    WedgesMeans(su, t, R, i);
    TakenNext(su, t, R, i);
    LeadHolds(su, i, t, j - LeadOf(su, i, t));
    AcquiringHolds(su, pcs, i, j, Tag(t));
    FilledHolds(su, t, R, i, i);
    FilledTag(su, t, R, i, |su.tags|);
  }

  lemma CollectedIsFilled(su: Setup, t: string, R: set<nat>)
    requires Tag(t) in su.limit && forall q :: q in R ==> q < |su.tags|
    ensures Collected(su, t, R, |su.tags|) == Filled(su, t, R, 0)
  {
    hide LeadOf, Taken;
  }

  /** Second stage: one after another they take their shares of t. */
  lemma {:induction false} Fill(su: Setup, t: string, R: set<nat>, i: nat) returns (run: seq<Step>)
    requires Wedges(su, t, R) && i <= |su.tags| && Tag(t) in su.limit
    ensures Legal(su, Init(su), run) && Inv(su, After(su, Init(su), run))
    ensures After(su, Init(su), run).pcs == Filled(su, t, R, i)
  {
    hide Plan, Holding, Enabled, Inv, Room, LeadOf, Taken;
    if i == 0 {
      run := Collect(su, t, R, |su.tags|);
      CollectedIsFilled(su, t, R);
    } else {
      var p := i - 1;
      var before := Fill(su, t, R, p);
      var s := After(su, Init(su), before);
      TakenNext(su, t, R, p);
      if p in R {
        var m := LeadOf(su, p, t) + Taken(su, t, R, i) - Taken(su, t, R, p);
        FilledHolds(su, t, R, i, p);
        assert m == FilledAt(su, t, R, i, p).k;
        forall j | LeadOf(su, p, t) <= j < m ensures Room(su, s.pcs, p, j) {
          FillRoom(su, t, R, p, j);
        }
        var more := Advance(su, s, p, m);
        run := before + more;
        RunOn(su, Init(su), before, more);
        assert s.pcs[p := Acquiring(m)] == Filled(su, t, R, i);
      } else {
        run := before;
        assert Filled(su, t, R, i) == Filled(su, t, R, p);
      }
    }
  }

  ghost predicate HoldersWait(su: Setup, pcs: seq<Pc>, t: string) {
    |pcs| == |su.tags| && forall q :: 0 <= q < |pcs| && Held(su, q, pcs[q])[Tag(t)] > 0 ==> WaitsFor(su, pcs, q, Tag(t))
  }

  /** t is full, and whoever holds it waits for it; p is one who waits. */
  ghost predicate Blocked(su: Setup, s: State, t: string, p: nat) {
    && WaitsFor(su, s.pcs, p, Tag(t))
    && Tag(t) in su.limit && Holding(su, s.pcs, Tag(t), |s.pcs|) == su.limit[Tag(t)]
    && HoldersWait(su, s.pcs, t)
  }

  /** A runner that waits for a full semaphore makes no step of its own. */
  lemma BlockedStands(su: Setup, s: State, t: string, p: nat, st: Step)
    requires Inv(su, s) && Blocked(su, s, t, p) && Enabled(su, s, st) && !st.Cancel?
    ensures !WaitsFor(su, s.pcs, st.p, Tag(t))
  {
    hide Plan, Holding, Held;
  }

  /** A step of a runner that does not hold t and does not wait for it leaves it without t. */
  lemma NoneGained(su: Setup, s: State, st: Step, r: Res)
    requires Inv(su, s) && Enabled(su, s, st) && !st.Cancel?
    requires Held(su, st.p, s.pcs[st.p])[r] == 0 && !WaitsFor(su, s.pcs, st.p, r)
    ensures Held(su, st.p, Apply(su, s, st).pcs[st.p])[r] == 0
    ensures Apply(su, s, st).pcs == s.pcs[st.p := Apply(su, s, st).pcs[st.p]]
  {
    hide Plan, Holding, ReturnPlan, UndoPlan, Inv, PcOk;
    var p := st.p;
    InvSizes(su, s);
    match st
    case Acquire(_) => OneMoreHeld(su, p, s.pcs[p].k);
    case Begin(_) => assert Plan(su, p)[..|Plan(su, p)|] == Plan(su, p);
    case Finish(_) => ReturnsPlan(su, p);
    case Release(_) =>
      var rest := s.pcs[p].rest;
      assert rest == [rest[0]] + rest[1..];
    case End(_) =>
  }

  lemma BlockedStays(su: Setup, s: State, t: string, p: nat, st: Step)
    requires Inv(su, s) && Blocked(su, s, t, p) && Enabled(su, s, st) && !st.Cancel?
    ensures Blocked(su, Apply(su, s, st), t, p)
  {
    hide Plan, Holding, Held, Enabled, Inv, Apply, WaitsFor;
    InvSizes(su, s);
    BlockedStands(su, s, t, p, st);
    StepBy(su, s, st);
    NoneGained(su, s, st, Tag(t));
    OthersWait(su, s.pcs, st.p, Apply(su, s, st).pcs[st.p], t, p);
  }

  lemma OthersWait(su: Setup, pcs: seq<Pc>, x: nat, pc: Pc, t: string, p: nat)
    requires |pcs| == |su.tags| && x < |pcs| && p != x && WaitsFor(su, pcs, p, Tag(t)) && HoldersWait(su, pcs, t)
    requires Held(su, x, pcs[x])[Tag(t)] == 0 && Held(su, x, pc)[Tag(t)] == 0
    ensures WaitsFor(su, pcs[x := pc], p, Tag(t))
    ensures Holding(su, pcs[x := pc], Tag(t), |pcs|) == Holding(su, pcs, Tag(t), |pcs|)
    ensures HoldersWait(su, pcs[x := pc], t)
  {
    hide Plan, Holding, Held;
    HoldingChange(su, pcs, x, pc, Tag(t), |pcs|);
    var next := pcs[x := pc];
    forall q | 0 <= q < |next| && Held(su, q, next[q])[Tag(t)] > 0 ensures WaitsFor(su, next, q, Tag(t)) {
      assert q != x;
      assert WaitsFor(su, pcs, q, Tag(t));
    }
  }

  lemma StepBy(su: Setup, s: State, st: Step)
    requires Enabled(su, s, st)
    ensures st.p < |s.pcs| == |su.tags| && |Apply(su, s, st).pcs| == |s.pcs|
  {
  }

  /** Third stage: whatever can still move does, until nothing can. */
  lemma {:induction false} Exhaust(su: Setup, s: State, t: string, p: nat) returns (run: seq<Step>)
    requires Inv(su, s) && Blocked(su, s, t, p)
    ensures Legal(su, s, run) && Deadlocked(su, After(su, s, run))
    decreases TotalWork(su, s.pcs, |su.tags|)
  {
    hide Plan, Holding, Enabled, Inv, Held, TotalWork, Apply;
    InvSizes(su, s);
    if CanMove(su, s) {
      var st :| Enabled(su, s, st) && !st.Cancel?;
      StepKeeps(su, s, st);
      StepWorks(su, s, st);
      BlockedStays(su, s, t, p, st);
      RunOne(su, s, st);
      var rest := Exhaust(su, Apply(su, s, st), t, p);
      run := [st] + rest;
      RunOn(su, s, [st], rest);
    } else {
      run := [];
    }
  }

  lemma WedgedIsBlocked(su: Setup, s: State, t: string, R: set<nat>, p: nat)
    requires Inv(su, s) && Wedges(su, t, R) && p in R && Tag(t) in su.limit && s.pcs == Filled(su, t, R, |su.tags|)
    ensures Blocked(su, s, t, p)
  {
    hide Plan, Holding, Inv, Held, FilledAt, LeadOf, Demand;
    InvSizes(su, s);
    FilledTag(su, t, R, |su.tags|, |su.tags|);
    forall q: nat | q < |s.pcs| && (q in R || Held(su, q, s.pcs[q])[Tag(t)] > 0) ensures WaitsFor(su, s.pcs, q, Tag(t)) {
      FilledHolds(su, t, R, |su.tags|, q);
      FilledWaits(su, t, R, q);
    }
  }

  lemma FilledWaits(su: Setup, t: string, R: set<nat>, q: nat)
    requires Wedges(su, t, R) && Tag(t) in su.limit && q < |su.tags|
    ensures FilledAt(su, t, R, |su.tags|, q).Acquiring?
    ensures q !in R ==> Held(su, q, FilledAt(su, t, R, |su.tags|, q))[Tag(t)] == 0
  {
    hide Plan, Held, LeadOf, Taken;
    HeldNone(su, q);
  }

  /** The condition leads to a deadlock: collect what is before t, fill t, and let the others finish. */
  lemma WedgesDeadlock(su: Setup) returns (run: seq<Step>)
    requires CanWedge(su)
    ensures Legal(su, Init(su), run) && Deadlocked(su, After(su, Init(su), run))
  {
    hide Plan, Holding, Enabled, Inv, Held, Filled, Blocked, Deadlocked, Init, Legal, After, Demand;
    var t, R :| Wedges(su, t, R);
    var p :| p in R;
    var before := Fill(su, t, R, |su.tags|);
    var s := After(su, Init(su), before);
    WedgedIsBlocked(su, s, t, R, p);
    var rest := Exhaust(su, s, t, p);
    run := before + rest;
    RunOn(su, Init(su), before, rest);
  }

  ghost predicate CanDeadlock(su: Setup) {
    exists run :: Legal(su, Init(su), run) && Deadlocked(su, After(su, Init(su), run))
  }

  /** Some run from the start, with or without cancellations, comes to a deadlock if and only if some tag and some
      runners satisfy the condition, which only looks at limits and tag lists. */
  lemma DeadlockIff(su: Setup)
    requires ValidSetup(su)
    ensures CanDeadlock(su) <==> CanWedge(su)
  {
    hide Legal, After, Deadlocked, Inv, Wedges, Init;
    if CanDeadlock(su) {
      var run :| Legal(su, Init(su), run) && Deadlocked(su, After(su, Init(su), run));
      InitInv(su);
      OccupancyIsHolders(su, Init(su), run);
      DeadlockWedges(su, After(su, Init(su), run));
    }
    if CanWedge(su) {
      var run := WedgesDeadlock(su);
    }
  }

  // ---- distinct tags, and too many of one

  /** Every runner lists each of its tags once, and every limit admits one. */
  ghost predicate Sound(su: Setup) {
    && (forall p :: 0 <= p < |su.tags| ==> Graph.NoDup(su.tags[p]))
    && (forall r :: r in su.limit ==> su.limit[r] >= 1)
  }

  lemma {:induction false} NoSurplus(su: Setup, R: set<nat>, t: string, n: nat)
    requires n <= |su.tags| && forall p :: 0 <= p < n ==> Uses(su, p, t) <= 1
    ensures Demand(su, R, t, 1, n) == 0
  {
    if n > 0 {
      NoSurplus(su, R, t, n - 1);
    }
  }

  lemma SoundNeverWedges(su: Setup)
    requires Sound(su)
    ensures !CanWedge(su)
  {
    hide Demand;
    forall t, R ensures !Wedges(su, t, R) {
      forall p | 0 <= p < |su.tags| ensures Uses(su, p, t) <= 1 {
        CountOne(su.tags[p], t);
      }
      NoSurplus(su, R, t, |su.tags|);
    }
  }

  /** With distinct tags per node and every limit at least one: while some runner has not ended, some runner can move
      without any cancellation. */
  lemma NoDeadlock(su: Setup, s: State, p: nat)
    requires Sound(su) && Inv(su, s) && p < |s.pcs| && !s.pcs[p].Ended?
    ensures CanMove(su, s)
  {
    hide Inv, CanMove, CanWedge;
    SoundNeverWedges(su);
    if !CanMove(su, s) {
      DeadlockWedges(su, s);
    }
  }

  /** Every run is bounded, and with distinct tags one that cannot go on has ended every runner and freed every slot. */
  lemma RunsComplete(su: Setup, run: seq<Step>)
    requires Legal(su, Init(su), run)
    ensures |run| <= TotalWork(su, Init(su).pcs, |su.tags|)
    ensures var s := After(su, Init(su), run);
            Sound(su) ==> CanMove(su, s) || ((forall p :: 0 <= p < |s.pcs| ==> s.pcs[p].Ended?) && forall r :: r in s.occupied ==> s.occupied[r] == 0)
  {
    hide Plan, Enabled, Legal, After, Init, TotalWork, CanMove, Holding, Sound;
    InitInv(su);
    RunsAreFinite(su, Init(su), run);
    OccupancyIsHolders(su, Init(su), run);
    var s := After(su, Init(su), run);
    if Sound(su) {
      forall p | 0 <= p < |s.pcs| && !s.pcs[p].Ended? ensures CanMove(su, s) {
        NoDeadlock(su, s, p);
      }
    }
    if forall p :: 0 <= p < |s.pcs| ==> s.pcs[p].Ended? {
      forall r | r in s.occupied ensures s.occupied[r] == 0 {
        AllEnded(su, s.pcs, r, |s.pcs|);
      }
    }
  }

  lemma {:induction false} AllEnded(su: Setup, pcs: seq<Pc>, r: Res, n: nat)
    requires n <= |pcs| == |su.tags| && forall p :: 0 <= p < n ==> pcs[p].Ended?
    ensures Holding(su, pcs, r, n) == 0
  {
    if n > 0 {
      AllEnded(su, pcs, r, n - 1);
    }
  }

  lemma {:induction false} OneDemand(su: Setup, p: nat, t: string, m: nat, n: nat)
    requires n <= |su.tags| && p < |su.tags|
    ensures Demand(su, {p}, t, m, n) == if p < n && Uses(su, p, t) > m then Uses(su, p, t) - m else 0
  {
    if n > 0 {
      OneDemand(su, p, t, m, n - 1);
    }
  }

  ghost function Excess(su: Setup, p: nat): set<string>
    requires p < |su.tags|
  {
    set t | t in su.tags[p] && Tag(t) in su.limit && Uses(su, p, t) > su.limit[Tag(t)]
  }

  /** A runner that lists a tag more often than the tag has slots can wait for itself. */
  lemma RepeatedTagWaitsForItself(su: Setup, p: nat, t: string)
    requires ValidSetup(su) && p < |su.tags| && t in Excess(su, p)
    ensures CanDeadlock(su)
  {
    hide Demand, CanDeadlock;
    var first := Least(Excess(su, p));
    forall u | Tag(u) in su.limit && Less(u, first) ensures Demand(su, {p}, u, 0, |su.tags|) <= su.limit[Tag(u)] {
      OneDemand(su, p, u, 0, |su.tags|);
      if Uses(su, p, u) > su.limit[Tag(u)] {
        assert u in multiset(su.tags[p]);
        assert u in Excess(su, p);
        LessAsymmetric(u, first);
      }
    }
    OneDemand(su, p, first, 1, |su.tags|);
    assert Wedges(su, first, {p});
    DeadlockIff(su);
  }
}
