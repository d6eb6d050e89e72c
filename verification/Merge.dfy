/** Committing one batch of patches: all of it or none of it. */
module Merge {
  import opened Wrappers
  import opened Order

  /** A field handle; two handles with one name are still different fields. */
  datatype Field = Field(handle: nat, name: string)

  datatype Value = Value(token: int)

  /** One slot per field: a setter touches its own field and no other. */
  type State = map<Field, Value>

  datatype Change = Zero | Write(field: Field, value: Value)

  datatype NodeResult = NodeResult(id: string, changes: seq<Change>)

  datatype Error = ZeroChange(node: string) | Conflict(field: string, nodes: seq<string>)

  // ---- the first pass: each patch on its own

  function ScanPatch(id: string, changes: seq<Change>, seen: set<Field>): Option<Error> {
    if changes == [] then None
    else
      match changes[0]
      case Zero => Some(ZeroChange(id))
      case Write(f, _) =>
        if f in seen then Some(Conflict(f.name, [id])) else ScanPatch(id, changes[1..], seen + {f})
  }

  lemma ScanNext(id: string, changes: seq<Change>, j: nat, seen: set<Field>)
    requires j < |changes|
    ensures ScanPatch(id, changes[j..], seen) ==
            if changes[j].Zero? then Some(ZeroChange(id))
            else if changes[j].field in seen then Some(Conflict(changes[j].field.name, [id]))
            else ScanPatch(id, changes[j + 1..], seen + {changes[j].field})
  {
    assert changes[j..][1..] == changes[j + 1..] && changes[j..][0] == changes[j];
  }

  lemma ScanEnd(id: string, changes: seq<Change>, seen: set<Field>)
    ensures ScanPatch(id, changes[|changes|..], seen) == None
  {
  }

  function Scan(results: seq<NodeResult>): Option<Error> {
    if results == [] then None
    else
      match ScanPatch(results[0].id, results[0].changes, {})
      case Some(e) => Some(e)
      case None => Scan(results[1..])
  }

  // ---- what was written

  function Fields(changes: seq<Change>): seq<Field> {
    if changes == [] then []
    else (if changes[0].Write? then [changes[0].field] else []) + Fields(changes[1..])
  }

  /** Nodes that write f, one entry per write. */
  function Writers(results: seq<NodeResult>, f: Field): seq<string> {
    if results == [] then []
    else Repeated(multiset(Fields(results[0].changes))[f], results[0].id) + Writers(results[1..], f)
  }

  function Repeated(n: nat, id: string): seq<string> {
    if n == 0 then [] else [id] + Repeated(n - 1, id)
  }

  function AllChanges(results: seq<NodeResult>): seq<Change> {
    if results == [] then [] else results[0].changes + AllChanges(results[1..])
  }

  /** Every change is a write, and no field is written twice in the whole batch. */
  ghost predicate Mergeable(results: seq<NodeResult>) {
    && (forall c :: c in AllChanges(results) ==> c.Write?)
    && (forall f :: multiset(Fields(AllChanges(results)))[f] <= 1)
  }

  function ApplyChanges(changes: seq<Change>, s: State): State {
    if changes == [] then s
    else ApplyChanges(changes[1..], if changes[0].Write? then s[changes[0].field := changes[0].value] else s)
  }

  /** All setters of a batch, in the order given. */
  function ApplyAll(results: seq<NodeResult>, s: State): State {
    ApplyChanges(AllChanges(results), s)
  }

  // ---- conflicts

  ghost function Contested(results: seq<NodeResult>): set<Field> {
    set f | f in Fields(AllChanges(results)) && |Writers(results, f)| >= 2
  }

  function Report(results: seq<NodeResult>, f: Field): Error {
    Conflict(f.name, Sort(Writers(results, f)))
  }

  /** Order on lists of node ids: the first difference decides, then the length. */
  predicate NodesLess(a: seq<string>, b: seq<string>) {
    if a == [] || b == [] then |a| < |b|
    else if a[0] != b[0] then Less(a[0], b[0])
    else NodesLess(a[1..], b[1..])
  }

  predicate ConflictLess(a: Error, b: Error)
    requires a.Conflict? && b.Conflict?
  {
    Less(a.field, b.field) || (a.field == b.field && NodesLess(a.nodes, b.nodes))
  }

  lemma {:induction false} NodesTotal(a: seq<string>, b: seq<string>)
    ensures a == b || NodesLess(a, b) || NodesLess(b, a)
    decreases |a|
  {
    if a != [] && b != [] {
      LessTotal(a[0], b[0]);
      if a[0] == b[0] {
        NodesTotal(a[1..], b[1..]);
        assert a == [a[0]] + a[1..] && b == [b[0]] + b[1..];
      }
    }
  }

  lemma {:induction false} NodesAsymmetric(a: seq<string>, b: seq<string>)
    requires NodesLess(a, b)
    ensures !NodesLess(b, a)
    decreases |a|
  {
    if a != [] && b != [] {
      if a[0] == b[0] {
        NodesAsymmetric(a[1..], b[1..]);
      } else {
        LessAsymmetric(a[0], b[0]);
      }
    }
  }

  lemma {:induction false} NodesTransitive(a: seq<string>, b: seq<string>, c: seq<string>)
    requires NodesLess(a, b) && NodesLess(b, c)
    ensures NodesLess(a, c)
    decreases |a|
  {
    if a != [] && b != [] && c != [] {
      if a[0] == b[0] && b[0] == c[0] {
        NodesTransitive(a[1..], b[1..], c[1..]);
      } else if a[0] != b[0] && b[0] != c[0] {
        LessTransitive(a[0], b[0], c[0]);
        LessIrreflexive(a[0]);
      }
    }
  }

  /** The conflict reported for a batch: a contested field's report that no other contested field's precedes. */
  ghost predicate IsLeast(results: seq<NodeResult>, fs: set<Field>, e: Error) {
    && e.Conflict?
    && (exists f :: f in fs && e == Report(results, f))
    && (forall f :: f in fs ==> !ConflictLess(Report(results, f), e))
  }

  lemma ConflictTotal(a: Error, b: Error)
    requires a.Conflict? && b.Conflict? && !ConflictLess(a, b) && !ConflictLess(b, a)
    ensures a == b
  {
    LessTotal(a.field, b.field);
    NodesTotal(a.nodes, b.nodes);
  }

  lemma ConflictTransitive(a: Error, b: Error, c: Error)
    requires a.Conflict? && b.Conflict? && c.Conflict? && ConflictLess(a, b) && ConflictLess(b, c)
    ensures ConflictLess(a, c)
  {
    if Less(a.field, b.field) && Less(b.field, c.field) {
      LessTransitive(a.field, b.field, c.field);
    } else if a.field == b.field && b.field == c.field {
      NodesTransitive(a.nodes, b.nodes, c.nodes);
    }
  }

  lemma ConflictAsymmetric(a: Error, b: Error)
    requires a.Conflict? && b.Conflict? && ConflictLess(a, b)
    ensures !ConflictLess(b, a)
  {
    if Less(a.field, b.field) {
      LessAsymmetric(a.field, b.field);
    } else {
      LessIrreflexive(a.field);
      NodesAsymmetric(a.nodes, b.nodes);
    }
  }

  /** Only one error can be the least, so the report does not depend on the order in which fields are visited. */
  lemma LeastIsUnique(results: seq<NodeResult>, fs: set<Field>, a: Error, b: Error)
    requires IsLeast(results, fs, a) && IsLeast(results, fs, b)
    ensures a == b
  {
    hide Report;
    var f :| f in fs && a == Report(results, f);
    var h :| h in fs && b == Report(results, h);
    ConflictTotal(a, b);
  }

  lemma LeastGrows(results: seq<NodeResult>, fs: set<Field>, e: Error, f: Field)
    requires IsLeast(results, fs, e)
    ensures IsLeast(results, fs + {f}, if ConflictLess(Report(results, f), e) then Report(results, f) else e)
  {
    hide ConflictLess;
    var r := Report(results, f);
    if ConflictLess(r, e) {
      forall h | h in fs + {f} ensures !ConflictLess(Report(results, h), r) {
        if h in fs {
          if ConflictLess(Report(results, h), r) {
            ConflictTransitive(Report(results, h), r, e);
          }
        } else if ConflictLess(r, r) {
          ConflictAsymmetric(r, r);
        }
      }
    }
  }

  lemma LeastOfOne(results: seq<NodeResult>, f: Field)
    ensures IsLeast(results, {f}, Report(results, f))
  {
    hide ConflictLess;
    var r := Report(results, f);
    if ConflictLess(r, r) {
      ConflictAsymmetric(r, r);
    }
  }

  lemma {:induction false} LeastExists(results: seq<NodeResult>, fs: set<Field>) returns (e: Error)
    requires fs != {}
    ensures IsLeast(results, fs, e)
    decreases fs
  {
    hide IsLeast;
    var f :| f in fs;
    if fs == {f} {
      LeastOfOne(results, f);
      e := Report(results, f);
    } else {
      var d := LeastExists(results, fs - {f});
      LeastIsConflict(results, fs - {f}, d);
      LeastGrows(results, fs - {f}, d, f);
      assert fs - {f} + {f} == fs;
      e := if ConflictLess(Report(results, f), d) then Report(results, f) else d;
    }
  }

  lemma LeastIsConflict(results: seq<NodeResult>, fs: set<Field>, e: Error)
    requires IsLeast(results, fs, e)
    ensures e.Conflict?
  {
  }

  // ---- the outcome of a merge

  /** What merging a batch into a state gives. */
  ghost function Merged(results: seq<NodeResult>, s: State): Result<State, Error> {
    match Scan(results)
    case Some(e) => Err(e)
    case None =>
      if Contested(results) == {} then Ok(ApplyAll(results, s))
      else
        assert exists e :: IsLeast(results, Contested(results), e) by {
          var e := LeastExists(results, Contested(results));
        }
        var e :| IsLeast(results, Contested(results), e);
        Err(e)
  }

  // ---- all or nothing

  lemma {:induction false} FieldsAppend(a: seq<Change>, b: seq<Change>)
    ensures Fields(a + b) == Fields(a) + Fields(b)
  {
    if a == [] {
      assert a + b == b;
    } else {
      var tail := a[1..];
      assert (a + b)[1..] == tail + b;
      FieldsAppend(tail, b);
      var head := if a[0].Write? then [a[0].field] else [];
      assert Fields(a + b) == head + Fields(tail + b) && Fields(a) == head + Fields(tail);
      assert head + (Fields(tail) + Fields(b)) == head + Fields(tail) + Fields(b);
    }
  }

  lemma {:induction false} RepeatedSize(n: nat, id: string)
    ensures |Repeated(n, id)| == n && multiset(Repeated(n, id)) == multiset{}[id := n]
  {
    if n > 0 {
      RepeatedSize(n - 1, id);
    }
  }

  /** A field has as many writers as it has writes in the batch. */
  lemma {:induction false} WritersCount(results: seq<NodeResult>, f: Field)
    ensures |Writers(results, f)| == multiset(Fields(AllChanges(results)))[f]
  {
    if results != [] {
      WritersCount(results[1..], f);
      FieldsAppend(results[0].changes, AllChanges(results[1..]));
      RepeatedSize(multiset(Fields(results[0].changes))[f], results[0].id);
    }
  }

  lemma {:induction false} FieldsIn(changes: seq<Change>, c: Change)
    requires c in changes && c.Write?
    ensures c.field in Fields(changes)
  {
    if changes[0] != c {
      FieldsIn(changes[1..], c);
    }
  }

  /** Not written twice here, and not at all if seen before. */
  ghost predicate Once(changes: seq<Change>, seen: set<Field>, f: Field) {
    multiset(Fields(changes))[f] + (if f in seen then 1 else 0) <= 1 || f !in Fields(changes)
  }

  lemma OnceStep(changes: seq<Change>, seen: set<Field>, f: Field)
    requires changes != [] && changes[0].Write? && changes[0].field !in seen
    ensures Once(changes, seen, f) <==> Once(changes[1..], seen + {changes[0].field}, f)
  {
    assert Fields(changes) == [changes[0].field] + Fields(changes[1..]);
    assert f in Fields(changes[1..]) <==> f in multiset(Fields(changes[1..]));
  }

  lemma OnceFails(changes: seq<Change>, seen: set<Field>)
    requires changes != [] && changes[0].Write? && changes[0].field in seen
    ensures !Once(changes, seen, changes[0].field)
  {
    assert Fields(changes) == [changes[0].field] + Fields(changes[1..]);
  }

  lemma {:induction false} ScanPatchNone(id: string, changes: seq<Change>, seen: set<Field>)
    ensures ScanPatch(id, changes, seen) == None <==>
              (forall c :: c in changes ==> c.Write?) && forall f :: Once(changes, seen, f)
  {
    hide Once;
    if changes == [] {
      forall f ensures Once(changes, seen, f) { OnceEmpty(seen, f); }
    } else {
      assert changes == [changes[0]] + changes[1..];
      if changes[0].Write? {
        var f0 := changes[0].field;
        if f0 in seen {
          OnceFails(changes, seen);
        } else {
          ScanPatchNone(id, changes[1..], seen + {f0});
          forall f ensures Once(changes, seen, f) <==> Once(changes[1..], seen + {f0}, f) {
            OnceStep(changes, seen, f);
          }
        }
      }
    }
  }

  lemma OnceEmpty(seen: set<Field>, f: Field)
    ensures Once([], seen, f)
  {
  }

  /** No change is zero and no field is written twice. */
  ghost predicate Disjoint(changes: seq<Change>) {
    (forall c :: c in changes ==> c.Write?) && forall f :: multiset(Fields(changes))[f] <= 1
  }

  lemma DisjointIsScan(id: string, changes: seq<Change>)
    ensures ScanPatch(id, changes, {}) == None <==> Disjoint(changes)
  {
    ScanPatchNone(id, changes, {});
    forall f ensures Once(changes, {}, f) <==> multiset(Fields(changes))[f] <= 1 {
      assert f in Fields(changes) <==> f in multiset(Fields(changes));
    }
  }

  lemma {:induction false} ScanNone(results: seq<NodeResult>)
    ensures Scan(results) == None <==> forall r :: r in results ==> Disjoint(r.changes)
  {
    hide Disjoint;
    if results != [] {
      assert results == [results[0]] + results[1..];
      DisjointIsScan(results[0].id, results[0].changes);
      ScanNone(results[1..]);
    }
  }

  lemma {:induction false} ChangesSplit(results: seq<NodeResult>, c: Change)
    ensures c in AllChanges(results) <==> exists r :: r in results && c in r.changes
  {
    if results != [] {
      assert results == [results[0]] + results[1..];
      ChangesSplit(results[1..], c);
    }
  }

  lemma {:induction false} PatchWithin(results: seq<NodeResult>, r: NodeResult, f: Field)
    requires r in results
    ensures multiset(Fields(r.changes))[f] <= multiset(Fields(AllChanges(results)))[f]
  {
    FieldsAppend(results[0].changes, AllChanges(results[1..]));
    if r != results[0] {
      PatchWithin(results[1..], r, f);
    }
  }

  lemma ContestedEmpty(results: seq<NodeResult>)
    ensures Contested(results) == {} <==> forall f :: multiset(Fields(AllChanges(results)))[f] <= 1
  {
    forall f ensures f in Contested(results) <==> multiset(Fields(AllChanges(results)))[f] >= 2 {
      WritersCount(results, f);
      assert f in Fields(AllChanges(results)) <==> f in multiset(Fields(AllChanges(results)));
    }
    if Contested(results) == {} {
      forall f ensures multiset(Fields(AllChanges(results)))[f] <= 1 {
        assert f !in Contested(results);
      }
    }
  }

  /** A batch merges exactly when no change is zero and no field is written twice in it. */
  lemma MergesExactly(results: seq<NodeResult>, s: State)
    ensures Merged(results, s).Ok? <==> Mergeable(results)
    ensures Mergeable(results) ==> Merged(results, s) == Ok(ApplyAll(results, s))
  {
    ScanNone(results);
    ContestedEmpty(results);
    if Mergeable(results) {
      forall r | r in results ensures Disjoint(r.changes) {
        forall c | c in r.changes ensures c.Write? { ChangesSplit(results, c); }
        forall f ensures multiset(Fields(r.changes))[f] <= 1 { PatchWithin(results, r, f); }
      }
    }
    if Merged(results, s).Ok? {
      forall c | c in AllChanges(results) ensures c.Write? {
        ChangesSplit(results, c);
        var r :| r in results && c in r.changes;
        assert Disjoint(r.changes);
      }
    }
  }

  // ---- order does not matter

  lemma DisjointTail(changes: seq<Change>)
    requires Disjoint(changes) && changes != []
    ensures Disjoint(changes[1..]) && changes[0].Write? && changes[0].field !in Fields(changes[1..])
  {
    assert changes == [changes[0]] + changes[1..];
    var f0 := changes[0].field;
    assert Fields(changes) == [f0] + Fields(changes[1..]);
    forall f ensures multiset(Fields(changes[1..]))[f] <= multiset(Fields(changes))[f] {}
    assert multiset(Fields(changes))[f0] == 1 + multiset(Fields(changes[1..]))[f0];
  }

  /** Each written field ends with the value written to it; every other field is untouched. */
  lemma {:induction false} ApplyMeans(changes: seq<Change>, s: State)
    requires Disjoint(changes)
    ensures forall c :: c in changes ==> c.field in ApplyChanges(changes, s) && ApplyChanges(changes, s)[c.field] == c.value
    ensures forall f :: f !in Fields(changes) ==>
              (f in ApplyChanges(changes, s) <==> f in s) && (f in s ==> ApplyChanges(changes, s)[f] == s[f])
    decreases |changes|
  {
    if changes != [] {
      DisjointTail(changes);
      assert changes == [changes[0]] + changes[1..];
      ApplyMeans(changes[1..], s[changes[0].field := changes[0].value]);
    }
  }

  lemma {:induction false} FieldsOf(changes: seq<Change>, f: Field)
    requires f in Fields(changes)
    ensures exists c :: c in changes && c.Write? && c.field == f
  {
    if changes[0].Write? && changes[0].field == f {
      assert changes[0] in changes;
    } else {
      FieldsOf(changes[1..], f);
      var c :| c in changes[1..] && c.Write? && c.field == f;
      assert c in changes;
    }
  }

  lemma SameAt(a: seq<Change>, b: seq<Change>, s: State, f: Field)
    requires Disjoint(a) && Disjoint(b) && forall c :: c in a <==> c in b
    ensures var x, y := ApplyChanges(a, s), ApplyChanges(b, s); (f in x <==> f in y) && (f in x ==> x[f] == y[f])
  {
    hide ApplyChanges, Disjoint, Fields;
    ApplyMeans(a, s);
    ApplyMeans(b, s);
    if f in Fields(a) {
      FieldsOf(a, f);
      var c :| c in a && c.Write? && c.field == f;
    } else if f in Fields(b) {
      FieldsOf(b, f);
      var c :| c in b && c.Write? && c.field == f;
      FieldsIn(a, c);
    }
  }

  lemma SameChanges(a: seq<Change>, b: seq<Change>, s: State)
    requires Disjoint(a) && Disjoint(b) && forall c :: c in a <==> c in b
    ensures ApplyChanges(a, s) == ApplyChanges(b, s)
  {
    hide ApplyChanges, Disjoint;
    var x, y := ApplyChanges(a, s), ApplyChanges(b, s);
    forall f ensures (f in x <==> f in y) && (f in x ==> x[f] == y[f]) {
      SameAt(a, b, s, f);
    }
    assert x.Keys == y.Keys;
  }

  lemma {:induction false} AllChangesAppend(a: seq<NodeResult>, b: seq<NodeResult>)
    ensures AllChanges(a + b) == AllChanges(a) + AllChanges(b)
  {
    if a == [] {
      assert a + b == b;
    } else {
      assert (a + b)[1..] == a[1..] + b;
      AllChangesAppend(a[1..], b);
    }
  }

  lemma IndexIn<T>(a: seq<T>, b: seq<T>) returns (i: nat)
    requires multiset(a) == multiset(b) && a != []
    ensures i < |b| && b[i] == a[0]
  {
    assert a[0] in multiset(a);
    assert a[0] in multiset(b);
    i :| 0 <= i < |b| && b[i] == a[0];
  }

  /** Where the head of one arrangement stands in another. */
  lemma FindHead<T>(a: seq<T>, b: seq<T>) returns (i: nat)
    requires multiset(a) == multiset(b) && a != []
    ensures i < |b| && b[i] == a[0]
    ensures multiset(a[1..]) == multiset(b[..i] + b[i + 1..]) && |b[..i] + b[i + 1..]| == |b| - 1
  {
    i := IndexIn(a, b);
    TailOf(a);
    Without(b, i);
  }

  lemma Without<T>(s: seq<T>, i: nat)
    requires i < |s|
    ensures multiset(s[..i] + s[i + 1..]) == multiset(s) - multiset{s[i]}
  {
    assert s == s[..i] + [s[i]] + s[i + 1..];
    assert multiset(s) == multiset(s[..i]) + multiset{s[i]} + multiset(s[i + 1..]);
  }

  lemma ChangesAround(b: seq<NodeResult>, i: nat)
    requires i < |b|
    ensures multiset(AllChanges(b)) == multiset(b[i].changes) + multiset(AllChanges(b[..i] + b[i + 1..]))
  {
    hide AllChanges;
    var x, y, z := b[..i], [b[i]], b[i + 1..];
    ChangesHead(b[i], z);
    AllChangesAppend(x, z);
    AllChangesAppend(x, y + z);
    assert b == x + (y + z);
  }

  lemma ChangesHead(r: NodeResult, z: seq<NodeResult>)
    ensures AllChanges([r] + z) == r.changes + AllChanges(z)
  {
    assert ([r] + z)[1..] == z;
  }

  /** Rearranging the results rearranges the changes. */
  lemma {:induction false} ChangesPermute(a: seq<NodeResult>, b: seq<NodeResult>)
    requires multiset(a) == multiset(b)
    ensures multiset(AllChanges(a)) == multiset(AllChanges(b))
    decreases |a|
  {
    SameLength(a, b);
    if a != [] {
      var i := FindHead(a, b);
      ChangesPermute(a[1..], b[..i] + b[i + 1..]);
      ChangesAround(b, i);
    }
  }

  lemma FieldsAround(b: seq<Change>, i: nat)
    requires i < |b|
    ensures multiset(Fields(b)) == multiset(Fields([b[i]])) + multiset(Fields(b[..i] + b[i + 1..]))
  {
    hide Fields;
    var x, y, z := b[..i], [b[i]], b[i + 1..];
    FieldsAppend(x, z);
    FieldsAppend(x, y + z);
    FieldsAppend(y, z);
    assert b == x + (y + z);
  }

  lemma {:induction false} FieldsPermute(a: seq<Change>, b: seq<Change>)
    requires multiset(a) == multiset(b)
    ensures multiset(Fields(a)) == multiset(Fields(b))
    decreases |a|
  {
    SameLength(a, b);
    if a != [] {
      var i := FindHead(a, b);
      FieldsPermute(a[1..], b[..i] + b[i + 1..]);
      FieldsAround(b, i);
      assert a == [a[0]] + a[1..];
      FieldsAppend([a[0]], a[1..]);
    }
  }

  /** A batch that merges gives the same state in whatever order its changes are applied. */
  lemma OrderIsInvisible(a: seq<NodeResult>, b: seq<NodeResult>, s: State)
    requires multiset(a) == multiset(b) && Mergeable(a)
    ensures Mergeable(b) && ApplyAll(a, s) == ApplyAll(b, s)
  {
    ChangesPermute(a, b);
    var x, y := AllChanges(a), AllChanges(b);
    FieldsPermute(x, y);
    forall c ensures c in x <==> c in y {
      assert c in x <==> c in multiset(x);
      assert c in y <==> c in multiset(y);
    }
    SameChanges(x, y, s);
  }

  /** What a merged state holds, field by field. */
  lemma MergedMeans(results: seq<NodeResult>, s: State, f: Field)
    requires Mergeable(results)
    ensures forall r, v :: r in results && Write(f, v) in r.changes ==> f in ApplyAll(results, s) && ApplyAll(results, s)[f] == v
    ensures (forall r, v :: r in results ==> Write(f, v) !in r.changes) ==>
              (f in ApplyAll(results, s) <==> f in s) && (f in s ==> ApplyAll(results, s)[f] == s[f])
  {
    var all := AllChanges(results);
    ApplyMeans(all, s);
    forall r, v | r in results && Write(f, v) in r.changes ensures f in ApplyAll(results, s) && ApplyAll(results, s)[f] == v {
      ChangesSplit(results, Write(f, v));
    }
    if f in Fields(all) {
      FieldsOf(all, f);
      var c :| c in all && c.Write? && c.field == f;
      ChangesSplit(results, c);
      var r :| r in results && c in r.changes;
      assert c == Write(f, c.value);
    }
  }

  // ---- the merge as it runs

  function InsertResult(x: NodeResult, s: seq<NodeResult>): (r: seq<NodeResult>)
    ensures multiset(r) == multiset{x} + multiset(s)
  {
    if s == [] then [x]
    else if Leq(x.id, s[0].id) then [x] + s
    else
      assert s == [s[0]] + s[1..];
      [s[0]] + InsertResult(x, s[1..])
  }

  /** The results by ascending node id. */
  function SortResults(s: seq<NodeResult>): (r: seq<NodeResult>)
    ensures multiset(r) == multiset(s)
  {
    if s == [] then []
    else
      assert s == [s[0]] + s[1..];
      InsertResult(s[0], SortResults(s[1..]))
  }

  function Lookup(writers: map<Field, seq<string>>, f: Field): seq<string> {
    if f in writers then writers[f] else []
  }

  lemma {:induction false} WritersAppend(a: seq<NodeResult>, r: NodeResult, f: Field)
    ensures Writers(a + [r], f) == Writers(a, f) + Repeated(multiset(Fields(r.changes))[f], r.id)
  {
    if a == [] {
      assert a + [r] == [r];
      assert [r][1..] == [];
    } else {
      assert (a + [r])[1..] == a[1..] + [r];
      WritersAppend(a[1..], r, f);
    }
  }

  lemma {:induction false} RepeatedAppend(n: nat, id: string)
    ensures Repeated(n + 1, id) == Repeated(n, id) + [id]
  {
    if n > 0 {
      RepeatedAppend(n - 1, id);
    }
  }

  /** Writers of the results before this one, and of this one's first changes. */
  ghost predicate Collected(results: seq<NodeResult>, id: string, changes: seq<Change>, writers: map<Field, seq<string>>) {
    forall f :: Lookup(writers, f) == Writers(results, f) + Repeated(multiset(Fields(changes))[f], id)
  }

  lemma FieldsNext(changes: seq<Change>, c: Change)
    requires c.Write?
    ensures Fields(changes + [c]) == Fields(changes) + [c.field]
  {
    FieldsAppend(changes, [c]);
    assert [c][1..] == [];
  }

  lemma CollectAt(was: seq<string>, before: seq<string>, id: string, changes: seq<Change>, c: Change, f: Field)
    requires c.Write? && was == before + Repeated(multiset(Fields(changes))[f], id)
    ensures (if f == c.field then was + [id] else was) == before + Repeated(multiset(Fields(changes + [c]))[f], id)
  {
    hide Fields, Repeated;
    FieldsNext(changes, c);
    RepeatedAppend(multiset(Fields(changes))[f], id);
  }

  lemma CollectOne(results: seq<NodeResult>, id: string, changes: seq<Change>, c: Change, writers: map<Field, seq<string>>)
    requires Collected(results, id, changes, writers) && c.Write?
    ensures Collected(results, id, changes + [c], writers[c.field := Lookup(writers, c.field) + [id]])
  {
    hide Fields, Repeated, Writers;
    var after := writers[c.field := Lookup(writers, c.field) + [id]];
    var more := changes + [c];
    forall f ensures Lookup(after, f) == Writers(results, f) + Repeated(multiset(Fields(more))[f], id) {
      assert Lookup(writers, f) == Writers(results, f) + Repeated(multiset(Fields(changes))[f], id);
      CollectAt(Lookup(writers, f), Writers(results, f), id, changes, c, f);
    }
  }

  lemma CollectResult(results: seq<NodeResult>, r: NodeResult, writers: map<Field, seq<string>>)
    requires Collected(results, r.id, r.changes, writers)
    ensures Collected(results + [r], "", [], writers)
  {
    forall f ensures Lookup(writers, f) == Writers(results + [r], f) + Repeated(multiset(Fields([]))[f], "") {
      WritersAppend(results, r, f);
    }
  }

  lemma CollectNext(results: seq<NodeResult>, id: string, writers: map<Field, seq<string>>)
    requires Collected(results, "", [], writers)
    ensures Collected(results, id, [], writers)
  {
    forall f ensures Lookup(writers, f) == Writers(results, f) + Repeated(multiset(Fields([]))[f], id) {
      assert Lookup(writers, f) == Writers(results, f) + Repeated(multiset(Fields([]))[f], "");
    }
  }

  /** Checks one patch and notes its writes. */
  method CollectPatch(ghost before: seq<NodeResult>, r: NodeResult, writers0: map<Field, seq<string>>)
    returns (err: Option<Error>, writers: map<Field, seq<string>>)
    requires Collected(before, "", [], writers0)
    ensures err == ScanPatch(r.id, r.changes, {})
    ensures err == None ==> Collected(before + [r], "", [], writers)
    ensures writers0.Keys <= writers.Keys
    ensures forall f :: f in writers ==> f in writers0 || f in Fields(r.changes)
  {
    hide Collected, ScanPatch, Fields;
    var seen: set<Field> := {};
    writers := writers0;
    CollectNext(before, r.id, writers0);
    for j := 0 to |r.changes|
      invariant Collected(before, r.id, r.changes[..j], writers)
      invariant ScanPatch(r.id, r.changes, {}) == ScanPatch(r.id, r.changes[j..], seen)
      invariant writers0.Keys <= writers.Keys
      invariant forall f :: f in writers ==> f in writers0 || f in Fields(r.changes)
    {
      var ch := r.changes[j];
      ScanNext(r.id, r.changes, j, seen);
      if ch.Zero? {
        return Some(ZeroChange(r.id)), writers;
      }
      if ch.field in seen {
        return Some(Conflict(ch.field.name, [r.id])), writers;
      }
      seen := seen + {ch.field};
      CollectOne(before, r.id, r.changes[..j], ch, writers);
      assert r.changes[..j + 1] == r.changes[..j] + [ch];
      FieldsIn(r.changes, ch);
      writers := writers[ch.field := Lookup(writers, ch.field) + [r.id]];
    }
    assert r.changes[..|r.changes|] == r.changes;
    ScanEnd(r.id, r.changes, seen);
    CollectResult(before, r, writers);
    err := None;
  }

  ghost predicate IsWriters(results: seq<NodeResult>, writers: map<Field, seq<string>>) {
    && (forall f :: Lookup(writers, f) == Writers(results, f))
    && (forall f :: f in writers ==> f in Fields(AllChanges(results)))
  }

  lemma CollectedAll(results: seq<NodeResult>, writers: map<Field, seq<string>>)
    requires Collected(results, "", [], writers) && forall f :: f in writers ==> f in Fields(AllChanges(results))
    ensures IsWriters(results, writers)
  {
    forall f ensures Lookup(writers, f) == Writers(results, f) {
      assert Lookup(writers, f) == Writers(results, f) + Repeated(multiset(Fields([]))[f], "");
    }
  }

  lemma FieldsPrefix(results: seq<NodeResult>, i: nat, f: Field)
    requires i < |results| && (f in Fields(AllChanges(results[..i])) || f in Fields(results[i].changes))
    ensures f in Fields(AllChanges(results[..i + 1]))
  {
    assert results[..i + 1] == results[..i] + [results[i]];
    AllChangesAppend(results[..i], [results[i]]);
    assert [results[i]][1..] == [];
    assert AllChanges([results[i]]) == results[i].changes;
    FieldsAppend(AllChanges(results[..i]), results[i].changes);
  }

  method Collect(results: seq<NodeResult>) returns (err: Option<Error>, writers: map<Field, seq<string>>)
    ensures err == Scan(results)
    ensures err == None ==> IsWriters(results, writers)
  {
    hide Collected, IsWriters;
    writers := map[];
    CollectStart();
    for i := 0 to |results|
      invariant Collected(results[..i], "", [], writers)
      invariant Scan(results) == Scan(results[i..])
      invariant forall f :: f in writers ==> f in Fields(AllChanges(results[..i]))
    {
      assert results[i..][1..] == results[i + 1..];
      ghost var before := writers;
      var e;
      e, writers := CollectPatch(results[..i], results[i], writers);
      if e.Some? {
        return e, writers;
      }
      assert results[..i + 1] == results[..i] + [results[i]];
      forall f | f in writers ensures f in Fields(AllChanges(results[..i + 1])) {
        FieldsPrefix(results, i, f);
      }
    }
    assert results[..|results|] == results;
    CollectedAll(results, writers);
    err := None;
  }

  lemma CollectStart()
    ensures Collected([], "", [], map[])
  {
  }

  ghost function Visited(writers: map<Field, seq<string>>, rest: set<Field>): set<Field> {
    set f | f in writers && f !in rest && |writers[f]| >= 2
  }

  lemma VisitOne(writers: map<Field, seq<string>>, rest: set<Field>, f: Field)
    requires f in rest && f in writers
    ensures Visited(writers, rest - {f}) == if |writers[f]| >= 2 then Visited(writers, rest) + {f} else Visited(writers, rest)
  {
  }

  lemma VisitAll(results: seq<NodeResult>, writers: map<Field, seq<string>>)
    requires IsWriters(results, writers)
    ensures Visited(writers, {}) == Contested(results)
    ensures Visited(writers, writers.Keys) == {}
  {
    hide Writers, Fields, AllChanges;
    forall f ensures f in Visited(writers, {}) <==> f in Contested(results) {
      assert Lookup(writers, f) == Writers(results, f);
    }
  }

  lemma ReportOf(results: seq<NodeResult>, writers: map<Field, seq<string>>, f: Field)
    requires IsWriters(results, writers) && f in writers
    ensures Conflict(f.name, Sort(writers[f])) == Report(results, f)
  {
    assert Lookup(writers, f) == Writers(results, f);
  }

  /** Looks at the fields in no particular order and keeps the least conflict. */
  method FindConflict(results: seq<NodeResult>, writers: map<Field, seq<string>>) returns (conflict: Option<Error>)
    requires IsWriters(results, writers)
    ensures conflict.None? <==> Contested(results) == {}
    ensures conflict.Some? ==> IsLeast(results, Contested(results), conflict.value)
  {
    hide ConflictLess, IsLeast, IsWriters, Visited, Contested, Report, Sort;
    conflict := None;
    var rest := writers.Keys;
    VisitAll(results, writers);
    while rest != {}
      invariant rest <= writers.Keys
      invariant conflict.None? <==> Visited(writers, rest) == {}
      invariant conflict.Some? ==> IsLeast(results, Visited(writers, rest), conflict.value) && conflict.value.Conflict?
      decreases |rest|
    {
      var f :| f in rest;
      VisitOne(writers, rest, f);
      if |writers[f]| >= 2 {
        var c := Conflict(f.name, Sort(writers[f]));
        ReportOf(results, writers, f);
        if conflict.None? {
          LeastOfOne(results, f);
          assert Visited(writers, rest) + {f} == {f};
          conflict := Some(c);
        } else {
          LeastGrows(results, Visited(writers, rest), conflict.value, f);
          if ConflictLess(c, conflict.value) {
            conflict := Some(c);
          }
        }
      }
      rest := rest - {f};
    }
  }

  lemma ApplyHead(changes: seq<Change>, rest: seq<Change>, j: nat, s: State)
    requires j < |changes|
    ensures var c := changes[j];
            ApplyChanges(changes[j..] + rest, s)
            == ApplyChanges(changes[j + 1..] + rest, if c.Write? then s[c.field := c.value] else s)
  {
    assert (changes[j..] + rest)[0] == changes[j];
    assert (changes[j..] + rest)[1..] == changes[j + 1..] + rest;
  }

  /** Runs the setters of one result after another. */
  method ApplyInOrder(ordered: seq<NodeResult>, state0: State) returns (state: State)
    ensures state == ApplyAll(ordered, state0)
  {
    hide ApplyChanges;
    state := state0;
    assert ordered[0..] == ordered;
    for i := 0 to |ordered|
      invariant ApplyAll(ordered[i..], state) == ApplyAll(ordered, state0)
    {
      var changes := ordered[i].changes;
      ghost var rest := AllChanges(ordered[i + 1..]);
      assert ordered[i..][1..] == ordered[i + 1..];
      assert changes[0..] == changes;
      for j := 0 to |changes|
        invariant ApplyChanges(changes[j..] + rest, state) == ApplyAll(ordered, state0)
      {
        ApplyHead(changes, rest, j, state);
        if changes[j].Write? {
          state := state[changes[j].field := changes[j].value];
        }
      }
      assert changes[|changes|..] + rest == rest;
    }
    assert ordered[|ordered|..] == [];
    ApplyNone(state);
  }

  lemma ApplyNone(s: State)
    ensures ApplyAll([], s) == s
  {
  }

  /** Commits a batch: the merged state, or the old state and the error every visiting order reports. */
  method MergeBatch(results: seq<NodeResult>, state0: State) returns (state: State, err: Option<Error>)
    ensures match Merged(results, state0)
            case Ok(s) => err == None && state == s
            case Err(e) => err == Some(e) && state == state0
  {
    hide IsLeast, ApplyAll;
    var writers;
    err, writers := Collect(results);
    if err.Some? {
      return state0, err;
    }
    var conflict := FindConflict(results, writers);
    if conflict.Some? {
      ghost var e :| IsLeast(results, Contested(results), e) && Merged(results, state0) == Err(e);
      LeastIsUnique(results, Contested(results), e, conflict.value);
      return state0, conflict;
    }
    MergesExactly(results, state0);
    OrderIsInvisible(results, SortResults(results), state0);
    state := ApplyInOrder(SortResults(results), state0);
    err := None;
  }
}
