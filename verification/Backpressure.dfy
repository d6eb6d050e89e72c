/** Adaptive concurrency control: additive increase, multiplicative decrease, waiters served in order. */
module Backpressure {

  const SECOND := 1_000_000_000

  /** Configuration after the constructor has filled in defaults. */
  datatype Config = Config(initial: int, min: int, max: int, threshold: int, interval: int)

  function Normalised(c: Config): Config {
    var initial := if c.initial <= 0 then 1 else c.initial;
    var min := if c.min <= 0 then 1 else c.min;
    var max := if c.max <= 0 then initial * 4 else c.max;
    var raised := if initial < min then min else initial;
    var capped := if raised > max then max else raised;
    Config(capped, min, max, c.threshold, if c.interval <= 0 then SECOND else c.interval)
  }

  /** What was set stands, unless it is out of range: at least one slot, at most four times the initial number where no
      maximum is set, the initial number moved into the bounds, and a second between adjustments. */
  lemma NormalisedMeans(c: Config)
    ensures var n := Normalised(c);
            && (if c.min >= 1 then n.min == c.min else n.min == 1)
            && (c.max >= 1 ==> n.max == c.max)
            && (c.max < 1 ==> n.max == if c.initial >= 1 then 4 * c.initial else 4)
            && (n.min <= n.max ==> n.min <= n.initial <= n.max)
            && (n.min <= c.initial <= n.max ==> n.initial == c.initial)
            && (c.initial < n.min <= n.max ==> n.initial == n.min)
            && (c.initial > n.max || n.min > n.max ==> n.initial == n.max)
            && n.threshold == c.threshold && (if c.interval >= 1 then n.interval == c.interval else n.interval == 1_000_000_000)
  {
  }

  /** granted: waiters that were handed a slot and have not noticed yet. held: slots in the hands of runners, granted
      ones included. leaked: slots handed to a waiter that gave up before it noticed. */
  datatype State = State(
    concurrency: int, active: int, waiters: seq<nat>, latencies: seq<int>, lastAdjust: int,
    next: nat, granted: set<nat>, held: int, leaked: int)

  datatype Event = Acquire | Notice(ticket: nat) | GiveUp(ticket: nat) | Release(latency: int, now: int)

  function Sum(s: seq<int>): int {
    if s == [] then 0 else Sum(s[..|s| - 1]) + s[|s| - 1]
  }

  /** The limit after an adjustment: halved above the latency threshold, one more otherwise, within the bounds. */
  function NewLimit(c: Config, limit: int, average: int): int {
    if average > c.threshold then (if limit / 2 > c.min then limit / 2 else c.min)
    else if limit + 1 < c.max then limit + 1 else c.max
  }

  function Adjusted(c: Config, s: State, now: int): State {
    if now - s.lastAdjust < c.interval || s.latencies == [] then s
    else
      var average := Sum(s.latencies) / |s.latencies|;
      s.(latencies := [], lastAdjust := now, concurrency := NewLimit(c, s.concurrency, average))
  }

  /** The slot passes to the longest waiting; active stays the same. */
  function Grant(s: State): State
    requires s.waiters != []
  {
    s.(waiters := s.waiters[1..], granted := s.granted + {s.waiters[0]}, held := s.held + 1)
  }

  function AfterRelease(c: Config, s0: State, latency: int, now: int): State {
    var s := Adjusted(c, s0.(latencies := s0.latencies + [latency], held := s0.held - 1), now);
    if s.waiters != [] && s.active <= s.concurrency then Grant(s)
    else s.(active := s.active - 1)
  }

  function Without(ws: seq<nat>, t: nat): seq<nat> {
    if ws == [] then [] else if ws[0] == t then ws[1..] else [ws[0]] + Without(ws[1..], t)
  }

  function Apply(c: Config, s: State, e: Event): State {
    match e
    case Acquire =>
      if s.active < s.concurrency then s.(active := s.active + 1, held := s.held + 1)
      else s.(waiters := s.waiters + [s.next], next := s.next + 1)
    case Notice(t) => s.(granted := s.granted - {t})
    case GiveUp(t) =>
      if t in s.granted then s.(granted := s.granted - {t}, held := s.held - 1, leaked := s.leaked + 1)
      else s.(waiters := Without(s.waiters, t))
    case Release(latency, now) => AfterRelease(c, s, latency, now)
  }

  /** A slot is released only by one of its holders; only a granted waiter notices. */
  predicate Allowed(s: State, e: Event) {
    match e
    case Acquire => true
    case Notice(t) => t in s.granted
    case GiveUp(t) => t in s.granted || t in s.waiters
    case Release(_, _) => s.held > |s.granted|
  }

  function Start(c: Config, now: int): State {
    State(Normalised(c).initial, 0, [], [], now, 0, {}, 0, 0)
  }

  predicate Bounded(c: Config) {
    1 <= c.min <= c.max
  }

  ghost predicate Inv(c: Config, s: State) {
    && c.min <= s.concurrency <= c.max
    && s.active == s.held + s.leaked
    && s.active <= c.max
    && s.leaked >= 0 && s.held >= |s.granted|
    && (forall t :: t in s.waiters || t in s.granted ==> t < s.next)
    && (forall i, j :: 0 <= i < j < |s.waiters| ==> s.waiters[i] != s.waiters[j])
    && (forall t :: t in s.waiters ==> t !in s.granted)
    && (s.waiters != [] ==> s.active >= c.min)
  }

  lemma StartInv(c: Config, now: int)
    requires Bounded(Normalised(c))
    ensures Inv(Normalised(c), Start(c, now))
  {
  }

  /** An adjustment keeps the limit within the bounds. */
  lemma LimitStays(c: Config, limit: int, average: int)
    requires Bounded(c) && c.min <= limit <= c.max
    ensures c.min <= NewLimit(c, limit, average) <= c.max
  {
  }

  lemma {:induction false} WithoutIs(ws: seq<nat>, t: nat)
    requires forall i, j :: 0 <= i < j < |ws| ==> ws[i] != ws[j]
    ensures forall x :: x in Without(ws, t) <==> x in ws && x != t
    ensures forall i, j :: 0 <= i < j < |Without(ws, t)| ==> Without(ws, t)[i] != Without(ws, t)[j]
  {
    if ws != [] {
      assert ws == [ws[0]] + ws[1..];
      assert ws[0] !in ws[1..];
      WithoutIs(ws[1..], t);
    }
  }

  lemma AdjustKeeps(c: Config, s: State, now: int)
    requires Bounded(c) && c.min <= s.concurrency <= c.max
    ensures c.min <= Adjusted(c, s, now).concurrency <= c.max
    ensures var a := Adjusted(c, s, now); a == s.(concurrency := a.concurrency, latencies := a.latencies, lastAdjust := a.lastAdjust)
  {
    if s.latencies != [] {
      LimitStays(c, s.concurrency, Sum(s.latencies) / |s.latencies|);
    }
  }

  lemma ReleaseKeeps(c: Config, s: State, latency: int, now: int)
    requires Bounded(c) && Inv(c, s) && s.held > |s.granted|
    ensures Inv(c, AfterRelease(c, s, latency, now))
  {
    hide Adjusted, NewLimit;
    var mid := s.(latencies := s.latencies + [latency], held := s.held - 1);
    AdjustKeeps(c, mid, now);
    if s.waiters != [] {
      assert s.waiters[0] in s.waiters && s.waiters[0] !in s.granted;
      assert |s.granted + {s.waiters[0]}| == |s.granted| + 1;
      assert forall t :: t in s.waiters[1..] ==> t in s.waiters;
    }
  }

  lemma AcquireKeeps(c: Config, s: State)
    requires Bounded(c) && Inv(c, s)
    ensures Inv(c, Apply(c, s, Acquire))
  {
    hide AfterRelease;
    var ws := s.waiters + [s.next];
    assert s.next !in s.waiters && s.next !in s.granted;
    forall t | t in ws ensures t <= s.next && t !in s.granted {
      assert t in s.waiters || t == s.next;
    }
  }

  lemma StepKeeps(c: Config, s: State, e: Event)
    requires Bounded(c) && Inv(c, s) && Allowed(s, e)
    ensures Inv(c, Apply(c, s, e))
  {
    hide AfterRelease;
    match e
    case Acquire => AcquireKeeps(c, s);
    case Notice(t) =>
      assert |s.granted - {t}| == |s.granted| - 1;
    case GiveUp(t) =>
      if t in s.granted {
        assert |s.granted - {t}| == |s.granted| - 1;
      } else {
        WithoutIs(s.waiters, t);
        if Without(s.waiters, t) != [] {
          assert Without(s.waiters, t)[0] in s.waiters;
        }
      }
    case Release(latency, now) => ReleaseKeeps(c, s, latency, now);
  }

  // ---- how the limit moves

  lemma SumIs(s: seq<int>, x: int)
    ensures Sum([]) == 0 && Sum(s + [x]) == Sum(s) + x
  {
    assert (s + [x])[..|s|] == s;
  }

  /** The release is due for an adjustment: its interval is over. */
  predicate Due(c: Config, s: State, now: int) {
    now - s.lastAdjust >= c.interval
  }

  /** The mean of the latencies on record, the new one included, exceeds the threshold. */
  predicate Slow(c: Config, s: State, latency: int) {
    (Sum(s.latencies) + latency) / (|s.latencies| + 1) > c.threshold
  }

  /** A slow adjustment leaves half the limit, rounded down, or the minimum if that is more; a quick one adds one, up to
      the maximum. Either clears the record and starts a new interval; without one the latency is put on record. */
  lemma LimitMoves(c: Config, s: State, latency: int, now: int)
    requires Bounded(c) && c.min <= s.concurrency <= c.max
    ensures var limit, s' := s.concurrency, AfterRelease(c, s, latency, now);
            if !Due(c, s, now) then s'.concurrency == limit && s'.latencies == s.latencies + [latency] && s'.lastAdjust == s.lastAdjust
            else
              && s'.latencies == [] && s'.lastAdjust == now
              && if Slow(c, s, latency) then
                   if limit <= 2 * c.min + 1 then s'.concurrency == c.min else 2 * s'.concurrency <= limit <= 2 * s'.concurrency + 1
                 else s'.concurrency == if limit == c.max then limit else limit + 1
  {
    SumIs(s.latencies, latency);
    hide Sum;
  }

  /** The slow adjustments of a run; and whether it has no others. */
  function SlowOnes(c: Config, s: State, run: seq<Event>): nat
    decreases |run|
  {
    if run == [] then 0
    else
      (if run[0].Release? && Due(c, s, run[0].now) && Slow(c, s, run[0].latency) then 1 else 0)
      + SlowOnes(c, Apply(c, s, run[0]), run[1..])
  }

  predicate NeverQuick(c: Config, s: State, run: seq<Event>)
    decreases |run|
  {
    run == [] || ((run[0].Release? && Due(c, s, run[0].now) ==> Slow(c, s, run[0].latency)) && NeverQuick(c, Apply(c, s, run[0]), run[1..]))
  }

  function Doubled(n: nat): nat {
    if n == 0 then 1 else 2 * Doubled(n - 1)
  }

  lemma SlowOne(c: Config, s: State, e: Event)
    requires Bounded(c) && Inv(c, s) && Allowed(s, e)
    requires e.Release? && Due(c, s, e.now) ==> Slow(c, s, e.latency)
    ensures var limit := Apply(c, s, e).concurrency;
            if e.Release? && Due(c, s, e.now) then limit == c.min || 2 * limit <= s.concurrency
            else limit == s.concurrency
  {
    if e.Release? {
      LimitMoves(c, s, e.latency, e.now);
      hide AfterRelease, Due, Slow;
    }
  }

  /** A run whose adjustments are all slow brings the limit down to the minimum in logarithmically many of them. */
  lemma {:induction false} FallsFast(c: Config, s: State, run: seq<Event>)
    requires Bounded(c) && Inv(c, s) && Legal(c, s, run) && NeverQuick(c, s, run)
    ensures After(c, s, run).concurrency == c.min || Doubled(SlowOnes(c, s, run)) * After(c, s, run).concurrency <= s.concurrency
    ensures Doubled(SlowOnes(c, s, run)) * (c.min + 1) > s.concurrency ==> After(c, s, run).concurrency == c.min
    decreases |run|
  {
    hide Inv, Apply, Allowed, Due, Slow;
    if run == [] {
      AtLeastMin(c, s);
    } else {
      StepKeeps(c, s, run[0]);
      SlowOne(c, s, run[0]);
      FallsFast(c, Apply(c, s, run[0]), run[1..]);
      RunKeeps(c, s, run);
      AtLeastMin(c, s);
      AtLeastMin(c, Apply(c, s, run[0]));
      AtLeastMin(c, After(c, s, run));
      Shrinks(SlowOnes(c, Apply(c, s, run[0]), run[1..]), After(c, s, run).concurrency, Apply(c, s, run[0]).concurrency, s.concurrency, c.min);
    }
  }

  lemma AtLeastMin(c: Config, s: State)
    requires Inv(c, s)
    ensures c.min <= s.concurrency
  {
  }

  lemma {:induction false} AtLeastOne(n: nat)
    ensures Doubled(n) >= 1
  {
    if n > 0 {
      AtLeastOne(n - 1);
    }
  }

  lemma Times(d: int, x: int, y: int)
    requires d >= 1 && 0 <= x <= y
    ensures d * x <= d * y && (2 * d) * x == 2 * (d * x)
  {
  }

  lemma Shrinks(n: nat, last: int, next: int, limit: int, min: int)
    requires last >= min >= 1 && (last == min || Doubled(n) * last <= next)
    ensures next == limit ==> last == min || (Doubled(n) * last <= limit && Doubled(n) * (min + 1) <= limit)
    ensures (next == min || 2 * next <= limit) ==> last == min || (Doubled(n + 1) * last <= limit && Doubled(n + 1) * (min + 1) <= limit)
  {
    AtLeastOne(n);
    if last > min {
      Times(Doubled(n), min + 1, last);
      Times(Doubled(n), last, last);
      LastBelow(Doubled(n), last);
    }
  }

  lemma LastBelow(d: int, last: int)
    requires d >= 1 && last >= 0
    ensures last <= d * last
  {
  }

  predicate Legal(c: Config, s: State, run: seq<Event>)
    decreases |run|
  {
    run == [] || (Allowed(s, run[0]) && Legal(c, Apply(c, s, run[0]), run[1..]))
  }

  function After(c: Config, s: State, run: seq<Event>): State
    decreases |run|
  {
    if run == [] then s else After(c, Apply(c, s, run[0]), run[1..])
  }

  lemma {:induction false} RunKeeps(c: Config, s: State, run: seq<Event>)
    requires Bounded(c) && Inv(c, s) && Legal(c, s, run)
    ensures Inv(c, After(c, s, run))
    decreases |run|
  {
    if run != [] {
      StepKeeps(c, s, run[0]);
      RunKeeps(c, Apply(c, s, run[0]), run[1..]);
    }
  }

  /** How many waiters gave up after they had been handed a slot. */
  function Abandoned(c: Config, s: State, run: seq<Event>): nat
    decreases |run|
  {
    if run == [] then 0
    else (if run[0].GiveUp? && run[0].ticket in s.granted then 1 else 0) + Abandoned(c, Apply(c, s, run[0]), run[1..])
  }

  lemma {:induction false} LeakedIsAbandoned(c: Config, s: State, run: seq<Event>)
    ensures After(c, s, run).leaked == s.leaked + Abandoned(c, s, run)
    decreases |run|
  {
    if run != [] {
      LeakedIsAbandoned(c, Apply(c, s, run[0]), run[1..]);
    }
  }

  /** In every run: the limit stays within its bounds, active never exceeds the maximum, and active is exactly the
      number of slots held if and only if no waiter gave up after it was handed a slot; while fewer than the minimum
      did, a waiter always has some holder whose release can serve it. */
  lemma SlotsAreAccountedFor(c: Config, now: int, run: seq<Event>)
    requires Bounded(Normalised(c)) && Legal(Normalised(c), Start(c, now), run)
    ensures var s := After(Normalised(c), Start(c, now), run);
            && Normalised(c).min <= s.concurrency <= Normalised(c).max
            && s.active <= Normalised(c).max
            && (s.active == s.held <==> Abandoned(Normalised(c), Start(c, now), run) == 0)
            && (s.waiters != [] && Abandoned(Normalised(c), Start(c, now), run) < Normalised(c).min ==> s.held >= 1)
  {
    hide Normalised, Legal, Apply;
    StartInv(c, now);
    RunKeeps(Normalised(c), Start(c, now), run);
    LeakedIsAbandoned(Normalised(c), Start(c, now), run);
  }

  lemma {:induction false} NobodyAbandons(c: Config, s: State, run: seq<Event>)
    requires forall e :: e in run ==> !e.GiveUp?
    ensures Abandoned(c, s, run) == 0
    decreases |run|
  {
    if run != [] {
      assert run[0] in run;
      NobodyAbandons(c, Apply(c, s, run[0]), run[1..]);
    }
  }

  /** The runners of one DAG wait under its one context: until that is cancelled nobody gives up, no slot is lost, and
      whoever waits has a holder whose release can serve it. */
  lemma BeforeCancellation(c: Config, now: int, run: seq<Event>)
    requires Bounded(Normalised(c)) && Legal(Normalised(c), Start(c, now), run)
    requires forall e :: e in run ==> !e.GiveUp?
    ensures var s := After(Normalised(c), Start(c, now), run); s.active == s.held && (s.waiters != [] ==> s.held >= 1)
  {
    hide Normalised, Legal, Apply;
    NobodyAbandons(Normalised(c), Start(c, now), run);
    SlotsAreAccountedFor(c, now, run);
    assert Normalised(c).min >= 1;
  }

  /** A slot is only ever handed out within the limit in force, and to the longest waiting. */
  lemma GrantsWithinLimit(c: Config, s: State, e: Event)
    requires Bounded(c) && Inv(c, s) && Allowed(s, e)
    ensures var s' := Apply(c, s, e);
            (e.Acquire? && s'.held > s.held) || s'.granted > s.granted ==> s'.active <= s'.concurrency
    ensures var s' := Apply(c, s, e);
            s'.granted > s.granted ==> e.Release? && s.waiters != [] && s'.granted == s.granted + {s.waiters[0]} && s'.waiters == s.waiters[1..]
  {
    hide Adjusted;
    if e.Release? {
      AdjustKeeps(c, s.(latencies := s.latencies + [e.latency], held := s.held - 1), e.now);
    }
  }

  /** A release while others wait serves the first of them, unless the limit has dropped below what is still held. */
  lemma ReleaseServes(c: Config, s: State, latency: int, now: int)
    requires Bounded(c) && Inv(c, s) && s.held > |s.granted| && s.waiters != []
    ensures var s' := AfterRelease(c, s, latency, now);
            if s.active <= s'.concurrency then s'.granted == s.granted + {s.waiters[0]} && s'.active == s.active
            else s'.waiters == s.waiters && s'.active == s.active - 1 >= s'.concurrency
  {
    hide Adjusted;
    AdjustKeeps(c, s.(latencies := s.latencies + [latency], held := s.held - 1), now);
  }

  // When can a waiter be left with nobody to serve it? Exactly when as many grants were abandoned as some limit within
  // the bounds lets through.

  /** Some waiter is queued and no slot is in anybody's hands. */
  predicate Stranded(s: State) {
    s.waiters != [] && s.held == 0
  }

  /** Some legal run leads from s to t, k grants being abandoned on the way. */
  ghost predicate Leads(c: Config, s: State, t: State, k: nat) {
    exists run :: Legal(c, s, run) && After(c, s, run) == t && Abandoned(c, s, run) == k
  }

  ghost predicate CanStrand(c: Config, s: State, k: nat) {
    exists t :: Leads(c, s, t, k) && Stranded(t)
  }

  lemma LeadsNowhere(c: Config, s: State)
    ensures Leads(c, s, s, 0)
  {
    assert Legal(c, s, []) && After(c, s, []) == s && Abandoned(c, s, []) == 0;
  }

  lemma LeadsStep(c: Config, s: State, e: Event)
    requires Allowed(s, e)
    ensures Leads(c, s, Apply(c, s, e), if e.GiveUp? && e.ticket in s.granted then 1 else 0)
  {
    hide Allowed, Apply;
    var run, t := [e], Apply(c, s, e);
    assert run[1..] == [];
    assert Legal(c, t, []) && After(c, t, []) == t && Abandoned(c, t, []) == 0;
    assert Legal(c, s, run) && After(c, s, run) == t;
  }

  lemma {:induction false} RunsJoin(c: Config, s: State, a: seq<Event>, b: seq<Event>)
    requires Legal(c, s, a) && Legal(c, After(c, s, a), b)
    ensures Legal(c, s, a + b) && After(c, s, a + b) == After(c, After(c, s, a), b)
    ensures Abandoned(c, s, a + b) == Abandoned(c, s, a) + Abandoned(c, After(c, s, a), b)
    decreases |a|
  {
    hide Allowed, Apply;
    if a == [] {
      assert a + b == b;
    } else {
      assert (a + b)[0] == a[0] && (a + b)[1..] == a[1..] + b;
      RunsJoin(c, Apply(c, s, a[0]), a[1..], b);
    }
  }

  lemma LeadsOn(c: Config, s: State, t: State, u: State, k: nat, l: nat)
    requires Leads(c, s, t, k) && Leads(c, t, u, l)
    ensures Leads(c, s, u, k + l)
  {
    hide Legal, After, Abandoned;
    var a :| Legal(c, s, a) && After(c, s, a) == t && Abandoned(c, s, a) == k;
    var b :| Legal(c, t, b) && After(c, t, b) == u && Abandoned(c, t, b) == l;
    RunsJoin(c, s, a, b);
  }

  /** Nobody holds or waits, and no latency is on record. */
  predicate Idle(c: Config, s: State) {
    && s.waiters == [] && s.latencies == [] && s.granted == {} && s.held == 0 && s.active == 0 && s.leaked == 0
    && c.min <= s.concurrency <= c.max && c.interval >= 1
  }

  /** One slow or one quick runner alone moves the limit by one adjustment. */
  lemma MoveLimit(c: Config, s: State, slow: bool) returns (t: State)
    requires Bounded(c) && Idle(c, s)
    ensures Leads(c, s, t, 0) && Idle(c, t)
    ensures t.concurrency == NewLimit(c, s.concurrency, if slow then c.threshold + 1 else c.threshold)
  {
    hide Leads, Abandoned, Legal, After;
    var latency := if slow then c.threshold + 1 else c.threshold;
    var held := Apply(c, s, Acquire);
    t := Apply(c, held, Release(latency, s.lastAdjust + c.interval));
    OneLatency(latency);
    LimitStays(c, s.concurrency, latency);
    LeadsStep(c, s, Acquire);
    LeadsStep(c, held, Release(latency, s.lastAdjust + c.interval));
    LeadsOn(c, s, held, t, 0, 0);
  }

  lemma OneLatency(latency: int)
    ensures Sum([] + [latency]) == latency
  {
    var s := [] + [latency];
    assert s[..0] == [] && s[0] == latency;
  }

  /** Slow runners bring an idle controller's limit down to the minimum. */
  lemma {:induction false} LowerLimit(c: Config, s: State) returns (t: State)
    requires Bounded(c) && Idle(c, s)
    ensures Leads(c, s, t, 0) && Idle(c, t) && t.concurrency == c.min
    decreases s.concurrency
  {
    hide Leads;
    if s.concurrency == c.min {
      t := s;
      LeadsNowhere(c, s);
    } else {
      var u := MoveLimit(c, s, true);
      t := LowerLimit(c, u);
      LeadsOn(c, s, u, t, 0, 0);
    }
  }

  /** Quick runners raise it to any value within the bounds. */
  lemma {:induction false} RaiseLimit(c: Config, s: State, k: int) returns (t: State)
    requires Bounded(c) && Idle(c, s) && s.concurrency <= k <= c.max
    ensures Leads(c, s, t, 0) && Idle(c, t) && t.concurrency == k
    decreases k - s.concurrency
  {
    hide Leads;
    if s.concurrency == k {
      t := s;
      LeadsNowhere(c, s);
    } else {
      var u := MoveLimit(c, s, false);
      t := RaiseLimit(c, u, k);
      LeadsOn(c, s, u, t, 0, 0);
    }
  }

  /** Every slot is out, held by a runner or leaked, and nobody waits. */
  predicate Full(c: Config, s: State) {
    && s.waiters == [] && s.granted == {} && s.held >= 0 && s.leaked >= 0 && c.interval >= 1
    && s.active == s.held + s.leaked == s.concurrency
  }

  lemma {:induction false} Fill(c: Config, s: State) returns (t: State)
    requires s.waiters == [] && s.granted == {} && s.held >= 0 && s.leaked == 0 && c.interval >= 1
    requires s.active == s.held <= s.concurrency
    ensures Leads(c, s, t, 0) && Full(c, t) && t.leaked == 0 && t.concurrency == s.concurrency && t.latencies == s.latencies
    decreases s.concurrency - s.active
  {
    hide Leads;
    if s.active == s.concurrency {
      t := s;
      LeadsNowhere(c, s);
    } else {
      var u := Apply(c, s, Acquire);
      LeadsStep(c, s, Acquire);
      t := Fill(c, u);
      LeadsOn(c, s, u, t, 0, 0);
    }
  }

  /** A waiter is handed a runner's slot and gives up: one slot moves from held to leaked. */
  lemma LeakOne(c: Config, s: State) returns (t: State)
    requires Full(c, s) && s.held >= 1
    ensures Leads(c, s, t, 1) && Full(c, t) && t.leaked == s.leaked + 1 && t.concurrency == s.concurrency
  {
    hide Leads, Sum, NewLimit, Legal, After, Abandoned;
    var queued := Apply(c, s, Acquire);
    var granted := Apply(c, queued, Release(0, s.lastAdjust));
    assert queued.waiters == [s.next];
    assert granted.granted == {s.next} && granted.waiters == [];
    t := Apply(c, granted, GiveUp(s.next));
    assert t.granted == {};
    LeadsStep(c, s, Acquire);
    LeadsStep(c, queued, Release(0, s.lastAdjust));
    LeadsStep(c, granted, GiveUp(s.next));
    LeadsOn(c, s, queued, granted, 0, 0);
    LeadsOn(c, s, granted, t, 0, 1);
  }

  lemma {:induction false} LeakAll(c: Config, s: State) returns (t: State)
    requires Full(c, s)
    ensures Leads(c, s, t, s.held) && Full(c, t) && t.held == 0
    decreases s.held
  {
    hide Leads;
    if s.held == 0 {
      t := s;
      LeadsNowhere(c, s);
    } else {
      var u := LeakOne(c, s);
      t := LeakAll(c, u);
      LeadsOn(c, s, u, t, 1, u.held);
    }
  }

  /** From an idle controller: bring the limit to k, hand out k slots, leak them all, and queue. */
  lemma IdleCanStrand(c: Config, s: State, k: nat)
    requires Bounded(c) && Idle(c, s) && c.min <= k <= c.max
    ensures CanStrand(c, s, k)
  {
    hide Leads;
    var low := LowerLimit(c, s);
    var limited := RaiseLimit(c, low, k);
    var full := Fill(c, limited);
    var leaked := LeakAll(c, full);
    var queued := Apply(c, leaked, Acquire);
    LeadsStep(c, leaked, Acquire);
    LeadsOn(c, s, low, limited, 0, 0);
    LeadsOn(c, s, limited, full, 0, 0);
    LeadsOn(c, s, full, leaked, 0, k);
    LeadsOn(c, s, leaked, queued, k, 0);
    assert Leads(c, s, queued, k) && Stranded(queued);
  }

  /** For every configuration: some run abandons exactly k grants and ends with a waiter whom nobody can serve if and
      only if k lies between the minimum and the maximum of the limit. */
  lemma StrandedIff(c: Config, now: int, k: nat)
    requires Bounded(Normalised(c))
    ensures CanStrand(Normalised(c), Start(c, now), k) <==> Normalised(c).min <= k <= Normalised(c).max
  {
    var n, s := Normalised(c), Start(c, now);
    if n.min <= k <= n.max {
      IdleCanStrand(n, s, k);
    }
    if CanStrand(n, s, k) {
      OnlyWithin(c, now, k);
    }
  }

  lemma OnlyWithin(c: Config, now: int, k: nat)
    requires Bounded(Normalised(c)) && CanStrand(Normalised(c), Start(c, now), k)
    ensures Normalised(c).min <= k <= Normalised(c).max
  {
    hide Normalised, Legal, After, Abandoned;
    var n, s := Normalised(c), Start(c, now);
    var t :| Leads(n, s, t, k) && Stranded(t);
    var run :| Legal(n, s, run) && After(n, s, run) == t && Abandoned(n, s, run) == k;
    StartInv(c, now);
    RunKeeps(n, s, run);
    LeakedIsAbandoned(n, s, run);
  }

  // Who is served next? Among those waiting always the first. A newcomer overtakes them exactly if a slot is idle while
  // they wait, which an increase of the limit can bring about: the release behind it serves only one of them.

  /** Nobody waits while a slot is idle. */
  predicate Tight(s: State) {
    s.waiters != [] ==> s.active >= s.concurrency
  }

  /** The release is due for an adjustment, latencies are low enough, and the limit is not at its maximum. */
  predicate Raises(c: Config, s: State, latency: int, now: int) {
    var all := s.latencies + [latency];
    now - s.lastAdjust >= c.interval && Sum(all) / |all| <= c.threshold && s.concurrency < c.max
  }

  /** A release that raises the limit with exactly all slots taken and more than one waiting. */
  predicate Loosens(c: Config, s: State, e: Event) {
    e.Release? && |s.waiters| >= 2 && s.active == s.concurrency && Raises(c, s, e.latency, e.now)
  }

  /** One step from a state in which no slot is idle: some slot is idle afterwards while somebody waits exactly if the
      step is such a release. */
  lemma LoosensIff(c: Config, s: State, e: Event)
    requires Bounded(c) && Inv(c, s) && Allowed(s, e) && Tight(s)
    ensures Tight(Apply(c, s, e)) <==> !Loosens(c, s, e)
  {
    hide Adjusted, Raises;
    match e
    case Release(latency, now) =>
      AdjustKeeps(c, s.(latencies := s.latencies + [latency], held := s.held - 1), now);
      RaisesByOne(c, s, latency, now);
    case GiveUp(t) => WithoutIs(s.waiters, t);
    case _ =>
  }

  lemma RaisesByOne(c: Config, s: State, latency: int, now: int)
    requires Bounded(c) && c.min <= s.concurrency <= c.max
    ensures var limit := Adjusted(c, s.(latencies := s.latencies + [latency], held := s.held - 1), now).concurrency;
            if Raises(c, s, latency, now) then limit == s.concurrency + 1 else limit <= s.concurrency
  {
    hide Sum;
  }

  /** A newcomer is served at once while others wait exactly when some slot is idle; otherwise it queues behind them. */
  lemma NewcomerIff(c: Config, s: State)
    requires Bounded(c) && Inv(c, s) && s.waiters != []
    ensures var next := Apply(c, s, Acquire);
            if Tight(s) then next.waiters == s.waiters + [s.next] && next.held == s.held
            else next.waiters == s.waiters && next.held == s.held + 1
  {
    hide AfterRelease;
  }

  /** Some run comes to a point where a newcomer would overtake those who wait. */
  ghost predicate CanOvertake(c: Config, s: State) {
    exists t, k :: Leads(c, s, t, k) && !Tight(t)
  }

  lemma {:induction false} FixedStaysTight(c: Config, s: State, run: seq<Event>)
    requires Bounded(c) && c.min == c.max && Inv(c, s) && Tight(s) && Legal(c, s, run)
    ensures Tight(After(c, s, run))
    decreases |run|
  {
    hide AfterRelease, Apply, Allowed, Inv, Tight;
    if run != [] {
      StepKeeps(c, s, run[0]);
      assert s.concurrency == c.max by { AtMaximum(c, s); }
      LoosensIff(c, s, run[0]);
      FixedStaysTight(c, Apply(c, s, run[0]), run[1..]);
    }
  }

  lemma AtMaximum(c: Config, s: State)
    requires c.min == c.max && Inv(c, s)
    ensures s.concurrency == c.max
  {
  }

  /** With every slot taken at the lowest limit two more queue up, and a quick runner's release raises the limit. */
  lemma Overtaken(c: Config, s: State) returns (t: State)
    requires Bounded(c) && c.min < c.max && Full(c, s) && s.leaked == 0 && s.latencies == [] && s.concurrency == c.min
    ensures Leads(c, s, t, 0) && !Tight(t)
  {
    hide Leads, Legal, After, Abandoned;
    var one := Apply(c, s, Acquire);
    var two := Apply(c, one, Acquire);
    t := Apply(c, two, Release(c.threshold, s.lastAdjust + c.interval));
    OneLatency(c.threshold);
    LeadsStep(c, s, Acquire);
    LeadsStep(c, one, Acquire);
    LeadsStep(c, two, Release(c.threshold, s.lastAdjust + c.interval));
    LeadsOn(c, s, one, two, 0, 0);
    LeadsOn(c, s, two, t, 0, 0);
  }

  /** For every configuration: newcomers never overtake those who wait, in any run, if and only if the limit cannot move
      at all, its minimum being its maximum. */
  lemma OvertakeIff(c: Config, now: int)
    requires Bounded(Normalised(c))
    ensures CanOvertake(Normalised(c), Start(c, now)) <==> Normalised(c).min < Normalised(c).max
  {
    hide Leads, Tight;
    var n, s := Normalised(c), Start(c, now);
    if n.min < n.max {
      var low := LowerLimit(n, s);
      var full := Fill(n, low);
      var t := Overtaken(n, full);
      LeadsOn(n, s, low, full, 0, 0);
      LeadsOn(n, s, full, t, 0, 0);
    } else if CanOvertake(n, s) {
      var t, k :| Leads(n, s, t, k) && !Tight(t);
      FixedLeads(c, now, t, k);
    }
  }

  lemma FixedLeads(c: Config, now: int, t: State, k: nat)
    requires Bounded(Normalised(c)) && Normalised(c).min == Normalised(c).max && Leads(Normalised(c), Start(c, now), t, k)
    ensures Tight(t)
  {
    hide Normalised, Legal, After, Abandoned;
    var n, s := Normalised(c), Start(c, now);
    var run :| Legal(n, s, run) && After(n, s, run) == t && Abandoned(n, s, run) == k;
    StartInv(c, now);
    FixedStaysTight(n, s, run);
  }

  /** The controller: every method changes its fields as the event it stands for says. */
  class Controller {
    const cfg: Config
    var concurrency: int
    var active: int
    var waiters: seq<nat>
    var latencies: seq<int>
    var lastAdjust: int
    var next: nat
    ghost var granted: set<nat>
    ghost var held: int
    ghost var leaked: int

    ghost function St(): State
      reads this
    {
      State(concurrency, active, waiters, latencies, lastAdjust, next, granted, held, leaked)
    }

    ghost predicate Valid()
      reads this
    {
      Bounded(cfg) && Inv(cfg, St())
    }

    constructor (c: Config, now: int)
      requires Bounded(Normalised(c))
      ensures cfg == Normalised(c) && St() == Start(c, now) && Valid()
    {
      cfg := Normalised(c);
      concurrency, active, waiters, latencies, lastAdjust := Normalised(c).initial, 0, [], [], now;
      next, granted, held, leaked := 0, {}, 0, 0;
    }

    /** Takes a slot at once, or a place in the queue. */
    method TryAcquire() returns (ok: bool, ticket: nat)
      requires Valid()
      modifies this
      ensures Valid() && St() == Apply(cfg, old(St()), Acquire)
      ensures ok <==> old(active) < old(concurrency)
      ensures !ok ==> waiters == old(waiters) + [ticket]
    {
      StepKeeps(cfg, St(), Acquire);
      ticket := next;
      if active < concurrency {
        active := active + 1;
        held := held + 1;
        return true, ticket;
      }
      waiters := waiters + [ticket];
      next := next + 1;
      ok := false;
    }

    /** A waiter that gives up takes itself out of the queue if it is still there. */
    method Withdraw(ticket: nat)
      requires Valid() && (ticket in waiters || ticket in granted)
      modifies this
      ensures Valid() && St() == Apply(cfg, old(St()), GiveUp(ticket))
    {
      StepKeeps(cfg, St(), GiveUp(ticket));
      ghost var before := St();
      var i := 0;
      while i < |waiters| && waiters[i] != ticket
        invariant 0 <= i <= |waiters|
        invariant forall j :: 0 <= j < i ==> waiters[j] != ticket
      {
        i := i + 1;
      }
      WithoutAt(waiters, ticket, i);
      if i < |waiters| {
        assert waiters[i] in waiters;
        waiters := waiters[..i] + waiters[i + 1..];
      } else {
        granted, held, leaked := granted - {ticket}, held - 1, leaked + 1;
      }
    }

    method MaybeAdjust(now: int)
      modifies this
      ensures St() == Adjusted(cfg, old(St()), now)
    {
      if now - lastAdjust < cfg.interval { return; }
      if |latencies| == 0 { return; }
      var total := 0;
      for i := 0 to |latencies|
        invariant total == Sum(latencies[..i])
      {
        assert latencies[..i + 1][..i] == latencies[..i];
        total := total + latencies[i];
      }
      assert latencies[..|latencies|] == latencies;
      var average := total / |latencies|;
      latencies := [];
      lastAdjust := now;
      if average > cfg.threshold {
        concurrency := if concurrency / 2 > cfg.min then concurrency / 2 else cfg.min;
      } else {
        concurrency := if concurrency + 1 < cfg.max then concurrency + 1 else cfg.max;
      }
    }

    /** A holder gives its slot back; the longest waiting may receive it. */
    method GiveBack(latency: int, now: int)
      requires Valid() && held > |granted|
      modifies this
      ensures Valid() && St() == Apply(cfg, old(St()), Release(latency, now))
    {
      hide Adjusted;
      StepKeeps(cfg, St(), Release(latency, now));
      latencies := latencies + [latency];
      held := held - 1;
      MaybeAdjust(now);
      if |waiters| > 0 && active <= concurrency {
        granted, held := granted + {waiters[0]}, held + 1;
        waiters := waiters[1..];
      } else {
        active := active - 1;
        // The second look at the queue after the decrement never finds anyone to wake.
        assert !(|waiters| > 0 && active < concurrency);
      }
    }
  }

  lemma {:induction false} WithoutAt(ws: seq<nat>, t: nat, i: nat)
    requires i <= |ws| && (forall j :: 0 <= j < i ==> ws[j] != t) && (i < |ws| ==> ws[i] == t)
    ensures Without(ws, t) == if i < |ws| then ws[..i] + ws[i + 1..] else ws
    decreases |ws|
  {
    if ws != [] && i > 0 {
      WithoutAt(ws[1..], t, i - 1);
    }
  }
}
