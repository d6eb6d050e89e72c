/** What a batch that cannot be merged is told, read off the batch itself: the other reading of the definitions in Merge. */
module Conflicts {
  import opened Wrappers
  import opened Order
  import opened Merge

  // ---- the first bad change

  /** The j-th change of a patch is no write, or writes a field that an earlier one writes. */
  ghost predicate Offends(changes: seq<Change>, j: nat)
    requires j < |changes|
  {
    changes[j].Zero? || exists l :: 0 <= l < j && changes[l].Write? && changes[l].field == changes[j].field
  }

  /** The patch's changes before j are writes of distinct fields, and seen is what they write. */
  ghost predicate FineTo(changes: seq<Change>, j: nat, seen: set<Field>)
    requires j <= |changes|
  {
    && (forall l: nat :: l < j ==> !Offends(changes, l))
    && (forall f :: f in seen <==> exists l :: 0 <= l < j && changes[l].Write? && changes[l].field == f)
  }

  function ErrorAt(id: string, changes: seq<Change>, j: nat): Error
    requires j < |changes|
  {
    if changes[j].Zero? then ZeroChange(id) else Conflict(changes[j].field.name, [id])
  }

  lemma FineNext(changes: seq<Change>, j: nat, seen: set<Field>)
    requires j < |changes| && FineTo(changes, j, seen) && !Offends(changes, j)
    ensures changes[j].Write? && FineTo(changes, j + 1, seen + {changes[j].field})
  {
    var more := seen + {changes[j].field};
    forall f ensures f in more <==> exists l :: 0 <= l < j + 1 && changes[l].Write? && changes[l].field == f {
      if f == changes[j].field {
        assert changes[j].field == f;
      }
    }
  }

  lemma {:induction false} ScanFrom(id: string, changes: seq<Change>, j: nat, seen: set<Field>, bad: nat)
    requires j <= bad < |changes| && FineTo(changes, j, seen) && Offends(changes, bad)
    requires forall l: nat :: l < bad ==> !Offends(changes, l)
    ensures ScanPatch(id, changes[j..], seen) == Some(ErrorAt(id, changes, bad))
    decreases bad - j
  {
    hide Offends, ScanPatch;
    ScanNext(id, changes, j, seen);
    if j < bad {
      FineNext(changes, j, seen);
      NotSeen(changes, j, seen);
      ScanFrom(id, changes, j + 1, seen + {changes[j].field}, bad);
    } else {
      Seen(changes, j, seen);
    }
  }

  lemma NotSeen(changes: seq<Change>, j: nat, seen: set<Field>)
    requires j < |changes| && FineTo(changes, j, seen) && !Offends(changes, j)
    ensures changes[j].Write? && changes[j].field !in seen
  {
  }

  lemma Seen(changes: seq<Change>, j: nat, seen: set<Field>)
    requires j < |changes| && FineTo(changes, j, seen) && Offends(changes, j)
    ensures changes[j].Zero? || changes[j].field in seen
  {
  }

  lemma {:induction false} ScanFine(id: string, changes: seq<Change>, j: nat, seen: set<Field>)
    requires j <= |changes| && FineTo(changes, j, seen) && forall l: nat :: l < |changes| ==> !Offends(changes, l)
    ensures ScanPatch(id, changes[j..], seen) == None
    decreases |changes| - j
  {
    hide Offends, ScanPatch;
    if j == |changes| {
      ScanEnd(id, changes, seen);
    } else {
      ScanNext(id, changes, j, seen);
      FineNext(changes, j, seen);
      NotSeen(changes, j, seen);
      ScanFine(id, changes, j + 1, seen + {changes[j].field});
    }
  }

  /** In the order of the batch, the j-th change of its i-th patch is the first that offends. */
  ghost predicate FirstOffence(results: seq<NodeResult>, i: nat, j: nat) {
    && i < |results| && j < |results[i].changes| && Offends(results[i].changes, j)
    && (forall l: nat :: l < j ==> !Offends(results[i].changes, l))
    && (forall k: nat, l: nat :: k < i && l < |results[k].changes| ==> !Offends(results[k].changes, l))
  }

  /** The patches are looked at one by one, and the first change that is none, or repeats a write of its own patch, is
      reported with its node; if there is none nothing is. */
  lemma {:induction false} ScanMeans(results: seq<NodeResult>)
    ensures forall i: nat, j: nat :: FirstOffence(results, i, j) ==> Scan(results) == Some(ErrorAt(results[i].id, results[i].changes, j))
    ensures (forall i: nat, j: nat :: i < |results| && j < |results[i].changes| ==> !Offends(results[i].changes, j)) ==>
              Scan(results) == None
  {
    hide Offends, ScanPatch, ErrorAt;
    if results != [] {
      var r, rest := results[0], results[1..];
      ScanMeans(rest);
      FineNone(r.changes);
      assert r.changes[0..] == r.changes;
      forall i: nat, j: nat | FirstOffence(results, i, j)
        ensures Scan(results) == Some(ErrorAt(results[i].id, results[i].changes, j))
      {
        if i == 0 {
          ScanFrom(r.id, r.changes, 0, {}, j);
        } else {
          ScanFine(r.id, r.changes, 0, {});
          OffenceLater(results, i, j);
        }
      }
      if forall i: nat, j: nat :: i < |results| && j < |results[i].changes| ==> !Offends(results[i].changes, j) {
        ScanFine(r.id, r.changes, 0, {});
        forall i: nat, j: nat | i < |rest| && j < |rest[i].changes| ensures !Offends(rest[i].changes, j) {
          assert rest[i] == results[i + 1];
        }
      }
    }
  }

  lemma FineNone(changes: seq<Change>)
    ensures FineTo(changes, 0, {})
  {
  }

  lemma OffenceLater(results: seq<NodeResult>, i: nat, j: nat)
    requires 0 < i && FirstOffence(results, i, j)
    ensures FirstOffence(results[1..], i - 1, j)
  {
    hide Offends;
    forall k: nat, l: nat | k < i - 1 && l < |results[1..][k].changes| ensures !Offends(results[1..][k].changes, l) {
      assert results[1..][k] == results[k + 1];
    }
  }

  // ---- when a batch merges

  ghost predicate WritesIn(changes: seq<Change>, f: Field) {
    exists j :: 0 <= j < |changes| && changes[j].Write? && changes[j].field == f
  }

  /** Two of the patches write f. */
  ghost predicate Shared(results: seq<NodeResult>, f: Field) {
    exists i, k :: 0 <= i < k < |results| && WritesIn(results[i].changes, f) && WritesIn(results[k].changes, f)
  }

  /** No change of any patch offends. */
  ghost predicate Clean(results: seq<NodeResult>) {
    forall i: nat, j: nat :: i < |results| && j < |results[i].changes| ==> !Offends(results[i].changes, j)
  }

  lemma WritesTail(changes: seq<Change>, f: Field)
    requires changes != []
    ensures WritesIn(changes, f) <==> (changes[0].Write? && changes[0].field == f) || WritesIn(changes[1..], f)
  {
    if WritesIn(changes[1..], f) {
      var j :| 0 <= j < |changes| - 1 && changes[1..][j].Write? && changes[1..][j].field == f;
      assert changes[j + 1].field == f;
    }
    if exists j :: 0 < j < |changes| && changes[j].Write? && changes[j].field == f {
      var j :| 0 < j < |changes| && changes[j].Write? && changes[j].field == f;
      assert changes[1..][j - 1].field == f;
    }
  }

  lemma {:induction false} WritesCount(changes: seq<Change>, f: Field)
    ensures WritesIn(changes, f) <==> multiset(Fields(changes))[f] > 0
  {
    hide WritesIn;
    if changes != [] {
      WritesTail(changes, f);
      WritesCount(changes[1..], f);
    } else {
      NoWrites(f);
    }
  }

  lemma NoWrites(f: Field)
    ensures !WritesIn([], f)
  {
  }

  lemma {:induction false} FirstBad(changes: seq<Change>, n: nat) returns (j: nat)
    requires n < |changes| && Offends(changes, n)
    ensures j < |changes| && Offends(changes, j) && forall l: nat :: l < j ==> !Offends(changes, l)
    decreases n
  {
    hide Offends;
    if l: nat :| l < n && Offends(changes, l) {
      j := FirstBad(changes, l);
    } else {
      j := n;
    }
  }

  lemma DisjointMeans(changes: seq<Change>)
    ensures Disjoint(changes) <==> forall j: nat :: j < |changes| ==> !Offends(changes, j)
  {
    hide Offends, Disjoint, ScanPatch;
    DisjointIsScan("", changes);
    FineNone(changes);
    assert changes[0..] == changes;
    if n: nat :| n < |changes| && Offends(changes, n) {
      var j := FirstBad(changes, n);
      ScanFrom("", changes, 0, {}, j);
    } else {
      ScanFine("", changes, 0, {});
    }
  }

  lemma SharedTail(results: seq<NodeResult>, f: Field)
    requires results != []
    ensures Shared(results, f) <==>
              Shared(results[1..], f) || (WritesIn(results[0].changes, f) && exists k :: 0 < k < |results| && WritesIn(results[k].changes, f))
  {
    hide WritesIn;
    if Shared(results[1..], f) {
      var i, k :| 0 <= i < k < |results| - 1 && WritesIn(results[1..][i].changes, f) && WritesIn(results[1..][k].changes, f);
      assert WritesIn(results[i + 1].changes, f) && WritesIn(results[k + 1].changes, f);
    }
    if i, k :| 0 < i < k < |results| && WritesIn(results[i].changes, f) && WritesIn(results[k].changes, f) {
      assert WritesIn(results[1..][i - 1].changes, f) && WritesIn(results[1..][k - 1].changes, f);
    }
  }

  lemma CleanTail(results: seq<NodeResult>)
    requires results != []
    ensures Clean(results) <==> Disjoint(results[0].changes) && Clean(results[1..])
  {
    hide Offends, Disjoint;
    DisjointMeans(results[0].changes);
    if Disjoint(results[0].changes) && Clean(results[1..]) {
      forall i: nat, j: nat | i < |results| && j < |results[i].changes| ensures !Offends(results[i].changes, j) {
        if i > 0 {
          assert results[1..][i - 1] == results[i];
        }
      }
    }
    if Clean(results) {
      forall i: nat, j: nat | i < |results| - 1 && j < |results[1..][i].changes| ensures !Offends(results[1..][i].changes, j) {
        assert results[1..][i] == results[i + 1];
      }
    }
  }

  /** Writes of f in the whole batch: some, and more than one, told by the patches. */
  lemma {:induction false} CountsAll(results: seq<NodeResult>, f: Field)
    requires Clean(results)
    ensures var n := multiset(Fields(AllChanges(results)))[f];
            && (n > 0 <==> exists i :: 0 <= i < |results| && WritesIn(results[i].changes, f))
            && (n > 1 <==> Shared(results, f))
  {
    hide WritesIn, Fields, Clean;
    if results == [] {
      NoFields();
    } else {
      CleanTail(results);
      CountsAll(results[1..], f);
      SharedTail(results, f);
      FieldsAppend(results[0].changes, AllChanges(results[1..]));
      WritesCount(results[0].changes, f);
      WritesLater(results, f);
    }
  }

  lemma WritesLater(results: seq<NodeResult>, f: Field)
    requires results != []
    ensures (exists i :: 0 <= i < |results| - 1 && WritesIn(results[1..][i].changes, f))
            <==> exists k :: 0 < k < |results| && WritesIn(results[k].changes, f)
  {
    hide WritesIn;
    if i :| 0 <= i < |results| - 1 && WritesIn(results[1..][i].changes, f) {
      assert WritesIn(results[i + 1].changes, f);
    }
    if k :| 0 < k < |results| && WritesIn(results[k].changes, f) {
      assert WritesIn(results[1..][k - 1].changes, f);
    }
  }

  lemma NoFields()
    ensures Fields(AllChanges([])) == []
  {
  }

  lemma {:induction false} CleanIfDisjoint(results: seq<NodeResult>)
    requires Disjoint(AllChanges(results))
    ensures Clean(results)
  {
    hide Clean, Disjoint;
    if results == [] {
      NothingUnclean();
    } else {
      DisjointSplit(results[0].changes, AllChanges(results[1..]));
      CleanIfDisjoint(results[1..]);
      CleanTail(results);
    }
  }

  lemma DisjointSplit(a: seq<Change>, b: seq<Change>)
    requires Disjoint(a + b)
    ensures Disjoint(a) && Disjoint(b)
  {
    hide Fields;
    FieldsAppend(a, b);
    forall c | c in a || c in b ensures c.Write? {
      assert c in a + b;
    }
    forall f ensures multiset(Fields(a))[f] <= 1 && multiset(Fields(b))[f] <= 1 {
      assert multiset(Fields(a + b))[f] == multiset(Fields(a))[f] + multiset(Fields(b))[f];
    }
  }

  lemma NothingUnclean()
    ensures Clean([])
  {
  }

  /** A batch merges exactly if every change is a write, no patch writes a field twice, and no two write the same one. */
  lemma MergesIff(results: seq<NodeResult>, s: State)
    ensures Merged(results, s).Ok? <==> Clean(results) && forall f :: !Shared(results, f)
  {
    hide Merged, Clean, Shared, Fields;
    MergesExactly(results, s);
    if Mergeable(results) {
      CleanIfDisjoint(results);
    }
    if Clean(results) {
      forall f ensures multiset(Fields(AllChanges(results)))[f] > 1 <==> Shared(results, f) {
        CountsAll(results, f);
      }
      forall c | c in AllChanges(results) ensures c.Write? {
        CleanWrites(results, c);
      }
    }
  }

  lemma CleanWrites(results: seq<NodeResult>, c: Change)
    requires Clean(results) && c in AllChanges(results)
    ensures c.Write?
  {
    ChangesSplit(results, c);
    var r :| r in results && c in r.changes;
    var i :| 0 <= i < |results| && results[i] == r;
    var j :| 0 <= j < |r.changes| && r.changes[j] == c;
    assert !Offends(results[i].changes, j);
  }

  // ---- which conflict is reported

  lemma {:induction false} RepeatedIn(n: nat, id: string, x: string)
    ensures x in Repeated(n, id) <==> n > 0 && x == id
  {
    if n > 0 {
      RepeatedIn(n - 1, id, x);
    }
  }

  lemma {:induction false} WritersAre(results: seq<NodeResult>, f: Field, id: string)
    ensures id in Writers(results, f) <==> exists i :: 0 <= i < |results| && results[i].id == id && WritesIn(results[i].changes, f)
  {
    hide WritesIn, Fields;
    if results != [] {
      WritersAre(results[1..], f, id);
      WritesCount(results[0].changes, f);
      RepeatedIn(multiset(Fields(results[0].changes))[f], results[0].id, id);
      if i :| 0 <= i < |results| - 1 && results[1..][i].id == id && WritesIn(results[1..][i].changes, f) {
        assert results[i + 1].id == id && WritesIn(results[i + 1].changes, f);
      }
      if k :| 0 < k < |results| && results[k].id == id && WritesIn(results[k].changes, f) {
        assert results[1..][k - 1].id == id && WritesIn(results[1..][k - 1].changes, f);
      }
    }
  }

  /** The report on f: its name, and in ascending order the nodes that write it. */
  ghost predicate ReportsOn(results: seq<NodeResult>, f: Field, e: Error) {
    && e.Conflict? && e.field == f.name && Sorted(e.nodes)
    && forall id :: id in e.nodes <==> exists i :: 0 <= i < |results| && results[i].id == id && WritesIn(results[i].changes, f)
  }

  lemma ReportMeans(results: seq<NodeResult>, f: Field)
    ensures ReportsOn(results, f, Report(results, f))
  {
    hide WritesIn, Writers, Less;
    var e := Report(results, f);
    SortSorted(Writers(results, f));
    forall id ensures id in e.nodes <==> exists i :: 0 <= i < |results| && results[i].id == id && WritesIn(results[i].changes, f) {
      WritersAre(results, f, id);
      InMultiset(e.nodes, Writers(results, f), id);
    }
  }

  /** Of two lists of ids the one with the lesser id at the first difference comes first, or the shorter of a list and its
      extension. */
  lemma {:induction false} NodesLessMeans(a: seq<string>, b: seq<string>)
    ensures NodesLess(a, b) <==>
              || (|a| < |b| && AgreeTo(a, b, |a|))
              || (exists k: nat :: AgreeTo(a, b, k) && k < |a| && k < |b| && a[k] != b[k] && Less(a[k], b[k]))
    decreases |a|
  {
    hide Less;
    if a != [] && b != [] && a[0] == b[0] {
      NodesLessMeans(a[1..], b[1..]);
      if NodesLess(a, b) {
        if |a| < |b| && AgreeTo(a[1..], b[1..], |a| - 1) {
          AgreeLater(a, b, |a| - 1);
        } else {
          var k: nat :| AgreeTo(a[1..], b[1..], k) && k < |a| - 1 && k < |b| - 1 && a[1..][k] != b[1..][k] && Less(a[1..][k], b[1..][k]);
          AgreeLater(a, b, k);
        }
      } else {
        forall k: nat | 0 < k && AgreeTo(a, b, k) ensures AgreeTo(a[1..], b[1..], k - 1) {
          AgreeSooner(a, b, k);
        }
      }
    } else if a != [] && b != [] {
      assert AgreeTo(a, b, 0);
      forall k: nat | 0 < k ensures !AgreeTo(a, b, k) {
        if AgreeTo(a, b, k) {
          AgreeFirst(a, b, k);
        }
      }
    }
  }

  /** The conflict reported names a field that two patches write; and any other such field has a later name, or the same
      name and no earlier list of nodes. */
  lemma ConflictMeans(results: seq<NodeResult>, s: State)
    requires Clean(results) && exists f :: Shared(results, f)
    ensures Merged(results, s).Err? && Merged(results, s).error.Conflict?
    ensures var e := Merged(results, s).error;
            && (exists f :: Shared(results, f) && ReportsOn(results, f, e))
            && (forall g :: Shared(results, g) ==>
                  exists d :: ReportsOn(results, g, d) && d.Conflict? && !Less(d.field, e.field) && (d.field == e.field ==> !NodesLess(d.nodes, e.nodes)))
  {
    hide WritesIn, Clean, Shared, ReportsOn, Less, NodesLess, Report;
    MergesIff(results, s);
    var e := Merged(results, s).error;
    ScanMeans(results) by { hide Clean; }
    assert Scan(results) == None by { CleanScans(results); }
    forall f ensures f in Contested(results) <==> Shared(results, f) {
      ContestedIsShared(results, f);
    }
    assert IsLeast(results, Contested(results), e);
    LeastIsConflict(results, Contested(results), e);
    var f :| f in Contested(results) && e == Report(results, f);
    ReportMeans(results, f);
    forall g | Shared(results, g)
      ensures exists d :: ReportsOn(results, g, d) && d.Conflict? && !Less(d.field, e.field) && (d.field == e.field ==> !NodesLess(d.nodes, e.nodes))
    {
      ReportMeans(results, g);
      assert Report(results, g).Conflict? by { ReportIsConflict(results, g); }
      assert !ConflictLess(Report(results, g), e);
    }
  }

  lemma ReportIsConflict(results: seq<NodeResult>, f: Field)
    ensures Report(results, f).Conflict?
  {
  }

  lemma CleanScans(results: seq<NodeResult>)
    requires Clean(results)
    ensures Scan(results) == None
  {
    hide Offends;
    ScanMeans(results);
  }

  lemma ContestedIsShared(results: seq<NodeResult>, f: Field)
    requires Clean(results)
    ensures f in Contested(results) <==> Shared(results, f)
  {
    hide Clean, Shared, Fields, Writers;
    CountsAll(results, f);
    WritersCount(results, f);
    assert f in Fields(AllChanges(results)) <==> f in multiset(Fields(AllChanges(results)));
  }
}
