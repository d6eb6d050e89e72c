/** The order on strings that sorting uses, and sorting itself. */
module Order {

  predicate Less(a: string, b: string) {
    b != [] && (a == [] || a[0] < b[0] || (a[0] == b[0] && Less(a[1..], b[1..])))
  }

  predicate Leq(a: string, b: string) {
    a == b || Less(a, b)
  }

  /** a and b agree before k. */
  predicate AgreeTo<T(==)>(a: seq<T>, b: seq<T>, k: nat) {
    k <= |a| && k <= |b| && a[..k] == b[..k]
  }

  /** The smaller character at the first difference decides, or the shorter of a string and its extension. */
  lemma {:induction false} LessMeans(a: string, b: string)
    ensures Less(a, b) <==>
              || (|a| < |b| && AgreeTo(a, b, |a|))
              || (exists k: nat :: AgreeTo(a, b, k) && k < |a| && k < |b| && a[k] < b[k])
  {
    if a != [] && b != [] && a[0] == b[0] {
      LessMeans(a[1..], b[1..]);
      if Less(a, b) {
        if |a| < |b| && AgreeTo(a[1..], b[1..], |a| - 1) {
          AgreeLater(a, b, |a| - 1);
        } else {
          var k: nat :| AgreeTo(a[1..], b[1..], k) && k < |a| - 1 && k < |b| - 1 && a[1..][k] < b[1..][k];
          AgreeLater(a, b, k);
        }
      } else {
        forall k: nat | 0 < k && AgreeTo(a, b, k) ensures AgreeTo(a[1..], b[1..], k - 1) {
          AgreeSooner(a, b, k);
        }
      }
    } else if a != [] && b != [] {
      assert AgreeTo(a, b, 0);
      forall k: nat | 0 < k ensures !AgreeTo(a, b, k) {
        if AgreeTo(a, b, k) {
          AgreeFirst(a, b, k);
        }
      }
    }
  }

  lemma AgreeFirst<T>(a: seq<T>, b: seq<T>, k: nat)
    requires 0 < k && AgreeTo(a, b, k)
    ensures a[0] == b[0]
  {
    assert a[..k][0] == b[..k][0];
  }

  lemma AgreeLater<T>(a: seq<T>, b: seq<T>, k: nat)
    requires a != [] && b != [] && a[0] == b[0] && AgreeTo(a[1..], b[1..], k)
    ensures AgreeTo(a, b, k + 1)
  {
    assert a[..k + 1] == [a[0]] + a[1..][..k] && b[..k + 1] == [b[0]] + b[1..][..k];
  }

  lemma AgreeSooner<T>(a: seq<T>, b: seq<T>, k: nat)
    requires 0 < k && AgreeTo(a, b, k)
    ensures AgreeTo(a[1..], b[1..], k - 1)
  {
    assert a[1..][..k - 1] == a[..k][1..] && b[1..][..k - 1] == b[..k][1..];
  }

  lemma {:induction false} LessIrreflexive(a: string)
    ensures !Less(a, a)
  {
    if a != [] {
      LessIrreflexive(a[1..]);
    }
  }

  lemma {:induction false} LessTransitive(a: string, b: string, c: string)
    requires Less(a, b) && Less(b, c)
    ensures Less(a, c)
  {
    if a != [] && a[0] == b[0] && b[0] == c[0] {
      LessTransitive(a[1..], b[1..], c[1..]);
    }
  }

  lemma {:induction false} LessTotal(a: string, b: string)
    ensures a == b || Less(a, b) || Less(b, a)
  {
    if a != [] && b != [] && a[0] == b[0] {
      LessTotal(a[1..], b[1..]);
      assert a == [a[0]] + a[1..] && b == [b[0]] + b[1..];
    }
  }

  lemma LessAsymmetric(a: string, b: string)
    requires Less(a, b)
    ensures !Less(b, a) && a != b
  {
    LessIrreflexive(a);
    if Less(b, a) {
      LessTransitive(a, b, a);
    }
  }

  /** Every finite nonempty set of strings has a least and a greatest element. */
  lemma {:induction false} Least(S: set<string>) returns (m: string)
    requires S != {}
    ensures m in S && forall x :: x in S ==> Leq(m, x)
  {
    var x :| x in S;
    var rest := S - {x};
    if rest == {} {
      assert S == {x};
      m := x;
    } else {
      var n := Least(rest);
      LessTotal(x, n);
      m := if Less(x, n) then x else n;
      forall y | y in S ensures Leq(m, y) {
        if y != x {
          assert y in rest;
          if Less(x, n) && n != y {
            LessTransitive(x, n, y);
          }
        }
      }
    }
  }

  lemma {:induction false} Greatest(S: set<string>) returns (m: string)
    requires S != {}
    ensures m in S && forall x :: x in S ==> Leq(x, m)
  {
    var x :| x in S;
    var rest := S - {x};
    if rest == {} {
      assert S == {x};
      m := x;
    } else {
      var n := Greatest(rest);
      LessTotal(x, n);
      m := if Less(n, x) then x else n;
      forall y | y in S ensures Leq(y, m) {
        if y != x {
          assert y in rest;
          if Less(n, x) && n != y {
            LessTransitive(y, n, x);
          }
        }
      }
    }
  }

  predicate Sorted(s: seq<string>) {
    forall i, j :: 0 <= i < j < |s| ==> Leq(s[i], s[j])
  }

  function Insert(x: string, s: seq<string>): (r: seq<string>)
    ensures multiset(r) == multiset{x} + multiset(s)
  {
    if s == [] then [x]
    else if Leq(x, s[0]) then [x] + s
    else
      assert s == [s[0]] + s[1..];
      [s[0]] + Insert(x, s[1..])
  }

  /** Sorting, as the library routines do it: an ascending rearrangement. */
  function Sort(s: seq<string>): (r: seq<string>)
    ensures multiset(r) == multiset(s)
  {
    if s == [] then []
    else
      assert s == [s[0]] + s[1..];
      Insert(s[0], Sort(s[1..]))
  }

  lemma InMultiset(s: seq<string>, t: seq<string>, x: string)
    requires multiset(s) == multiset(t)
    ensures x in s <==> x in t
  {
    assert x in s <==> x in multiset(s);
    assert x in t <==> x in multiset(t);
  }

  lemma {:induction false} InsertSorted(x: string, s: seq<string>)
    requires Sorted(s)
    ensures Sorted(Insert(x, s))
    decreases |s|
  {
    if s != [] {
      if Leq(x, s[0]) {
        forall j | 0 <= j < |s| ensures Leq(x, s[j]) {
          if x != s[0] && s[0] != s[j] {
            assert Leq(s[0], s[j]);
            LessTransitive(x, s[0], s[j]);
          }
        }
      } else {
        InsertSorted(x, s[1..]);
        LessTotal(x, s[0]);
        var rest := Insert(x, s[1..]);
        forall j | 0 <= j < |rest| ensures Leq(s[0], rest[j]) {
          assert rest[j] in multiset(rest);
          if rest[j] != x {
            assert rest[j] in s[1..];
          }
        }
      }
    }
  }

  lemma {:induction false} SortSorted(s: seq<string>)
    ensures Sorted(Sort(s))
    decreases |s|
  {
    if s != [] {
      SortSorted(s[1..]);
      InsertSorted(s[0], Sort(s[1..]));
    }
  }

  lemma SortedHead(s: seq<string>, t: seq<string>)
    requires Sorted(s) && Sorted(t) && s != [] && t != [] && s[0] in t && t[0] in s
    ensures s[0] == t[0]
  {
    hide Less;
    var i :| 0 <= i < |t| && t[i] == s[0];
    var j :| 0 <= j < |s| && s[j] == t[0];
    if s[0] != t[0] {
      assert Leq(t[0], t[i]) && Leq(s[0], s[j]);
      LessAsymmetric(s[0], t[0]);
    }
  }

  /** Two ascending rearrangements of the same elements are equal. */
  lemma TailOf<T>(s: seq<T>)
    requires s != []
    ensures s == [s[0]] + s[1..] && multiset(s[1..]) == multiset(s) - multiset{s[0]}
  {
  }

  lemma SortedTail(s: seq<string>)
    requires Sorted(s) && s != []
    ensures Sorted(s[1..])
  {
    hide Less;
  }

  lemma {:induction false} SortedUnique(s: seq<string>, t: seq<string>)
    requires Sorted(s) && Sorted(t) && multiset(s) == multiset(t)
    ensures s == t
    decreases |s|
  {
    hide Sorted;
    SameLength(s, t);
    if s != [] {
      InMultiset(s, t, s[0]);
      InMultiset(s, t, t[0]);
      SortedHead(s, t);
      SortedTail(s);
      SortedTail(t);
      TailOf(s);
      TailOf(t);
      SortedUnique(s[1..], t[1..]);
    }
  }

  /** Without repeats the result ascends strictly. */
  lemma SortStrict(s: seq<string>)
    requires forall i, j :: 0 <= i < j < |s| ==> s[i] != s[j]
    ensures forall i, j :: 0 <= i < j < |Sort(s)| ==> Less(Sort(s)[i], Sort(s)[j])
  {
    SortSorted(s);
    var r := Sort(s);
    forall i, j | 0 <= i < j < |r| ensures Less(r[i], r[j]) {
      if r[i] == r[j] {
        var x := r[i];
        CountTwo(r, i, j);
        CountOne(s, x);
      }
    }
  }

  lemma CountTwo(r: seq<string>, i: nat, j: nat)
    requires i < j < |r| && r[i] == r[j]
    ensures multiset(r)[r[i]] >= 2
  {
    assert r == r[..j] + [r[j]] + r[j + 1..];
    assert r[i] in r[..j];
  }

  lemma {:induction false} CountOne(s: seq<string>, x: string)
    requires forall i, j :: 0 <= i < j < |s| ==> s[i] != s[j]
    ensures multiset(s)[x] <= 1
    decreases |s|
  {
    if s != [] {
      var last := |s| - 1;
      assert s == s[..last] + [s[last]];
      CountOne(s[..last], x);
      if x == s[last] {
        assert x !in s[..last];
      }
    }
  }

  lemma SameLength<T>(a: seq<T>, b: seq<T>)
    requires multiset(a) == multiset(b)
    ensures |a| == |b|
  {
    assert |multiset(a)| == |a| && |multiset(b)| == |b|;
  }
}
