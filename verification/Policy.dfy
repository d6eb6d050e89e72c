/** The checks a resumer makes before it takes a lease: the policy's two views of a batch, and an earlier successor. */
module Policy {
  import opened Graph
  import opened Wrappers
  import Interrupt
  import Order
  import Resume

  datatype Assessment = Assessment(id: string, flagged: bool)

  /** What is pending is some of the calls, each once. */
  ghost predicate PendingSubset(calls: seq<string>, pending: seq<string>) {
    NoDup(pending) && forall id :: id in pending ==> id != "" && id in calls
  }

  /** Both views agree: every call is assessed exactly once, nothing else is, and flagged means pending. */
  ghost predicate Agrees(calls: seq<string>, pending: seq<string>, snap: seq<Assessment>) {
    && PendingSubset(calls, pending)
    && "" !in calls
    && Distinct(snap) && AssessedIds(snap) == Elems(calls)
    && forall i :: 0 <= i < |snap| ==> (snap[i].flagged <==> snap[i].id in pending)
  }

  method ValidatePendingSubset(calls: seq<string>, pending: seq<string>) returns (ok: bool)
    ensures ok <==> PendingSubset(calls, pending)
  {
    var known := set c | c in calls;
    var seen: set<string> := {};
    for i := 0 to |pending|
      invariant seen == Elems(pending[..i]) && NoDup(pending[..i])
      invariant forall k :: 0 <= k < i ==> pending[k] != "" && pending[k] in calls
    {
      var id := pending[i];
      if id == "" || id !in known {
        assert id in pending;
        return false;
      }
      if id in seen {
        var k :| 0 <= k < i && pending[k] == id;
        return false;
      }
      seen := seen + {id};
      assert pending[..i + 1] == pending[..i] + [id];
    }
    assert pending[..|pending|] == pending;
    ok := true;
  }

  ghost function AssessedIds(snap: seq<Assessment>): set<string> {
    set i | 0 <= i < |snap| :: snap[i].id
  }

  ghost predicate Distinct(snap: seq<Assessment>) {
    forall i, j :: 0 <= i < j < |snap| ==> snap[i].id != snap[j].id
  }

  /** The assessments by id, each id once. */
  ghost predicate IsTable(snap: seq<Assessment>, table: map<string, bool>) {
    && |table| == |snap|
    && table.Keys == AssessedIds(snap)
    && forall i :: 0 <= i < |snap| ==> snap[i].id in table && table[snap[i].id] == snap[i].flagged
  }

  lemma IdsNext(snap: seq<Assessment>, i: nat)
    requires i < |snap|
    ensures AssessedIds(snap[..i + 1]) == AssessedIds(snap[..i]) + {snap[i].id}
  {
    var was, now := snap[..i], snap[..i + 1];
    assert now == was + [snap[i]];
    forall k | 0 <= k < i ensures now[k] == was[k] {}
    assert now[i].id in AssessedIds(now);
  }

  lemma OneMoreRow(table: map<string, bool>, id: string, flagged: bool)
    requires id !in table
    ensures |table[id := flagged]| == |table| + 1 && table[id := flagged].Keys == table.Keys + {id}
  {
  }

  lemma TableNext(snap: seq<Assessment>, i: nat, table: map<string, bool>)
    requires i < |snap| && IsTable(snap[..i], table) && snap[i].id !in table
    ensures IsTable(snap[..i + 1], table[snap[i].id := snap[i].flagged])
  {
    hide AssessedIds;
    IdsNext(snap, i);
    var was, now := snap[..i], snap[..i + 1];
    assert forall k :: 0 <= k < i ==> was[k] == now[k];
    OneMoreRow(table, snap[i].id, snap[i].flagged);
  }

  lemma DistinctNext(snap: seq<Assessment>, i: nat)
    requires i < |snap| && Distinct(snap[..i])
    ensures Distinct(snap[..i + 1]) <==> snap[i].id !in AssessedIds(snap[..i])
  {
    var was, now := snap[..i], snap[..i + 1];
    if snap[i].id in AssessedIds(was) {
      var k :| 0 <= k < |was| && was[k].id == snap[i].id;
      assert now[k].id == now[i].id;
    } else {
      forall j, k | 0 <= j < k < |now| ensures now[j].id != now[k].id {
        assert now[j] == was[j];
      }
    }
  }

  lemma DistinctPrefix(snap: seq<Assessment>, i: nat)
    requires i <= |snap| && !Distinct(snap[..i])
    ensures !Distinct(snap)
  {
    var p := snap[..i];
    var j, k :| 0 <= j < k < |p| && p[j].id == p[k].id;
    assert snap[j].id == snap[k].id;
  }

  /** Collects the assessments, unless an id is empty or repeated. */
  method Tabulate(snap: seq<Assessment>) returns (table: Option<map<string, bool>>)
    ensures table.Some? <==> Distinct(snap) && "" !in AssessedIds(snap)
    ensures table.Some? ==> IsTable(snap, table.value)
  {
    hide IsTable, Distinct;
    var t: map<string, bool> := map[];
    Empty();
    for i := 0 to |snap|
      invariant IsTable(snap[..i], t) && Distinct(snap[..i]) && "" !in AssessedIds(snap[..i])
    {
      var a := snap[i];
      if a.id == "" { return None; }
      KeysAre(snap[..i], t);
      DistinctNext(snap, i);
      if a.id in t {
        DistinctPrefix(snap, i + 1);
        return None;
      }
      TableNext(snap, i, t);
      assert snap[..i + 1] == snap[..i] + [a];
      t := t[a.id := a.flagged];
    }
    assert snap[..|snap|] == snap;
    table := Some(t);
  }

  lemma Empty()
    ensures IsTable([], map[]) && Distinct([])
  {
  }

  lemma KeysAre(snap: seq<Assessment>, table: map<string, bool>)
    requires IsTable(snap, table)
    ensures table.Keys == AssessedIds(snap)
  {
  }

  ghost predicate RowsOk(calls: seq<string>, pending: seq<string>, table: map<string, bool>) {
    forall c :: c in calls ==> c in table && (table[c] <==> c in pending)
  }

  /** Equally many assessments as calls and a right one for each call leave no room for another. */
  lemma TableAgrees(calls: seq<string>, pending: seq<string>, snap: seq<Assessment>, table: map<string, bool>)
    requires NoDup(calls) && PendingSubset(calls, pending) && IsTable(snap, table) && Distinct(snap) && "" !in AssessedIds(snap)
    ensures |table| == |calls| && RowsOk(calls, pending, table) <==> Agrees(calls, pending, snap)
  {
    NoDupSize(calls);
    hide NoDup, Distinct, PendingSubset;
    if |table| == |calls| && RowsOk(calls, pending, table) {
      assert Elems(calls) <= table.Keys;
      Smaller(Elems(calls), table.Keys);
      forall i | 0 <= i < |snap| ensures snap[i].flagged <==> snap[i].id in pending {
        assert snap[i].id in Elems(calls);
      }
    }
    if Agrees(calls, pending, snap) {
      assert Elems(calls) == table.Keys;
      forall c | c in calls ensures c in table && (table[c] <==> c in pending) {
        assert c in AssessedIds(snap);
        var i :| 0 <= i < |snap| && snap[i].id == c;
      }
    }
  }

  /** A policy's assessment and its intercept agree on a batch of distinct calls. */
  method ConsistentAssessments(calls: seq<string>, pending: seq<string>, snap: seq<Assessment>) returns (ok: bool)
    ensures NoDup(calls) ==> (ok <==> Agrees(calls, pending, snap))
    ensures ok ==> PendingSubset(calls, pending)
  {
    hide NoDup, Agrees, RowsOk, IsTable, Distinct;
    var sub := ValidatePendingSubset(calls, pending);
    if !sub { NotSubset(calls, pending, snap); return false; }
    var t := Tabulate(snap);
    if t.None? { NotTabled(calls, pending, snap); return false; }
    var table := t.value;
    if NoDup(calls) {
      TableAgrees(calls, pending, snap, table);
    }
    if |table| != |calls| { return false; }
    var wanted := set id | id in pending;
    var flagged := 0;
    NoRows(pending, table);
    for i := 0 to |calls|
      invariant RowsOk(calls[..i], pending, table)
      invariant NoDup(calls) ==> flagged == |Elems(calls[..i]) * wanted|
    {
      var c := calls[i];
      RowNext(calls, i, pending, table);
      if c !in table { return false; }
      if NoDup(calls) {
        CountNext(calls, i, wanted);
      }
      if table[c] { flagged := flagged + 1; }
      if table[c] != (c in wanted) { return false; }
    }
    assert calls[..|calls|] == calls;
    WantedAreCalls(calls, pending, wanted);
    ok := flagged == |wanted|;
  }

  lemma NotSubset(calls: seq<string>, pending: seq<string>, snap: seq<Assessment>)
    ensures Agrees(calls, pending, snap) ==> PendingSubset(calls, pending)
  {
  }

  lemma NotTabled(calls: seq<string>, pending: seq<string>, snap: seq<Assessment>)
    ensures Agrees(calls, pending, snap) ==> Distinct(snap) && "" !in AssessedIds(snap)
  {
  }

  lemma NoRows(pending: seq<string>, table: map<string, bool>)
    ensures RowsOk([], pending, table) && Elems<string>([]) == {}
  {
  }

  lemma RowNext(calls: seq<string>, i: nat, pending: seq<string>, table: map<string, bool>)
    requires i < |calls| && RowsOk(calls[..i], pending, table)
    ensures RowsOk(calls[..i + 1], pending, table) <==> calls[i] in table && (table[calls[i]] <==> calls[i] in pending)
    ensures RowsOk(calls, pending, table) ==> RowsOk(calls[..i + 1], pending, table)
  {
    assert calls[..i + 1] == calls[..i] + [calls[i]];
  }

  lemma WantedAreCalls(calls: seq<string>, pending: seq<string>, wanted: set<string>)
    requires PendingSubset(calls, pending) && wanted == Elems(pending)
    ensures Elems(calls) * wanted == wanted
  {
  }

  lemma FreshAt(calls: seq<string>, i: nat)
    requires NoDup(calls) && i < |calls|
    ensures Elems(calls[..i + 1]) == Elems(calls[..i]) + {calls[i]} && calls[i] !in Elems(calls[..i])
  {
    assert calls[..i + 1] == calls[..i] + [calls[i]];
  }

  lemma CountNext(calls: seq<string>, i: nat, wanted: set<string>)
    requires NoDup(calls) && i < |calls|
    ensures |Elems(calls[..i + 1]) * wanted| == |Elems(calls[..i]) * wanted| + if calls[i] in wanted then 1 else 0
  {
    FreshAt(calls, i);
    hide NoDup, Elems;
    var c, was, now := calls[i], Elems(calls[..i]), Elems(calls[..i + 1]);
    if c in wanted {
      assert now * wanted == was * wanted + {c};
    } else {
      assert now * wanted == was * wanted;
    }
  }

  /** A policy as it stands now: whether it can assess a batch, what it flags, and its fingerprint. */
  datatype View = View(assesses: bool, fingerprint: string, pending: seq<string>, snap: seq<Assessment>)

  ghost predicate Coherent(frozen: Interrupt.Frozen, v: View) {
    v.assesses && Agrees(frozen.calls, v.pending, v.snap)
  }

  /** The frozen batch runs only if it carries no fingerprint or today's policy confirms it; it is replaced only if the
      policy coherently flags something under another fingerprint. */
  method ClassifyFrozenPolicy(frozen: Interrupt.Frozen, v: View) returns (verdict: Resume.Verdict)
    requires NoDup(frozen.calls)
    ensures verdict.RunIt? <==> frozen.fingerprint == "" || (Coherent(frozen, v) && v.fingerprint == frozen.fingerprint)
    ensures verdict.Replace? <==> frozen.fingerprint != "" && Coherent(frozen, v) && v.fingerprint != frozen.fingerprint && v.pending != []
    ensures verdict.Replace? ==> verdict.pending == v.pending && verdict.fingerprint == v.fingerprint
  {
    if frozen.fingerprint == "" { return Resume.RunIt; }
    if !v.assesses { return Resume.Refuse; }
    var ok := ConsistentAssessments(frozen.calls, v.pending, v.snap);
    if !ok { return Resume.Refuse; }
    if v.fingerprint == frozen.fingerprint { return Resume.RunIt; }
    if |v.pending| == 0 { return Resume.Refuse; }
    verdict := Resume.Replace(v.pending, v.fingerprint);
  }

  // ---- the earliest successor

  predicate Earlier(a: Interrupt.Frozen, b: Interrupt.Frozen) {
    a.createdAt < b.createdAt || (a.createdAt == b.createdAt && Order.Less(a.id, b.id))
  }

  lemma EarlierTransitive(a: Interrupt.Frozen, b: Interrupt.Frozen, c: Interrupt.Frozen)
    requires Earlier(a, b) && Earlier(b, c)
    ensures Earlier(a, c)
  {
    if a.createdAt == b.createdAt == c.createdAt {
      Order.LessTransitive(a.id, b.id, c.id);
    }
  }

  /** r supersedes id, and nothing among rs that does is older, or as old with a lesser id. */
  ghost predicate EarliestOf(rs: seq<Interrupt.Frozen>, id: string, r: Interrupt.Frozen) {
    && r in rs && r.supersedes == id && r.id != id
    && forall s :: s in rs && s.supersedes == id && s.id != id ==>
         r.createdAt <= s.createdAt && (r.createdAt == s.createdAt ==> !Order.Less(s.id, r.id))
  }

  /** The oldest record that supersedes id, ties broken by id; the order of the listing does not matter. */
  method EarliestSuccessor(rs: seq<Interrupt.Frozen>, id: string) returns (chosen: Option<Interrupt.Frozen>)
    ensures chosen.None? <==> forall s :: s in rs ==> s.supersedes != id || s.id == id
    ensures chosen.Some? ==> EarliestOf(rs, id, chosen.value)
  {
    chosen := None;
    for i := 0 to |rs|
      invariant chosen.None? <==> forall s :: s in rs[..i] ==> s.supersedes != id || s.id == id
      invariant chosen.Some? ==> EarliestOf(rs[..i], id, chosen.value)
    {
      var r := rs[i];
      assert rs[..i + 1] == rs[..i] + [r];
      if r.id != id && r.supersedes == id {
        if chosen.None? {
          Order.LessIrreflexive(r.id);
          chosen := Some(r);
        } else if Earlier(r, chosen.value) {
          StillEarliest(rs[..i], id, chosen.value, r);
          chosen := Some(r);
        }
      }
    }
    assert rs[..|rs|] == rs;
  }

  lemma StillEarliest(rs: seq<Interrupt.Frozen>, id: string, was: Interrupt.Frozen, r: Interrupt.Frozen)
    requires EarliestOf(rs, id, was) && Earlier(r, was) && r.supersedes == id && r.id != id
    ensures EarliestOf(rs + [r], id, r)
  {
    Order.LessIrreflexive(r.id);
    forall s | s in rs + [r] && s.supersedes == id && s.id != id ensures !Earlier(s, r) {
      if s in rs && Earlier(s, r) {
        EarlierTransitive(s, r, was);
      }
    }
  }

  /** The choice depends only on which records there are. */
  lemma EarliestIsUnique(rs: seq<Interrupt.Frozen>, ss: seq<Interrupt.Frozen>, id: string, a: Interrupt.Frozen, b: Interrupt.Frozen)
    requires (forall r :: r in rs <==> r in ss) && EarliestOf(rs, id, a) && EarliestOf(ss, id, b)
    requires forall r, s :: r in rs && s in rs && r.id == s.id ==> r == s
    ensures a == b
  {
    Order.LessTotal(a.id, b.id);
  }
}
