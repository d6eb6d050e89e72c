/** What one level of a workflow does to the state, told of its nodes and their patches: the other reading of the
    definitions in Schedule. */
module Commits {
  import opened Graph
  import opened Wrappers
  import opened Merge
  import opened Conflicts
  import opened Batch
  import opened Schedule
  import Depth

  ghost predicate AtDepth(w: Workflow, k: nat, x: Id)
    requires Acyclic(w.g)
  {
    x in Ids(w.g) && Depth.DepthOf(w.g, x) == k
  }

  /** x is at depth k and makes this patch of the state. */
  ghost predicate Gives(w: Workflow, k: nat, s: State, x: Id, changes: seq<Change>)
    requires Acyclic(w.g)
  {
    AtDepth(w, k, x) && x in w.run && w.run[x](s) == Patch(changes)
  }

  lemma {:induction false} OutputsAre(w: Workflow, names: seq<string>, s: State)
    ensures |Outputs(w, names, s)| == |names|
    ensures forall i :: 0 <= i < |names| ==>
              Outputs(w, names, s)[i] == NodeResult(names[i], if RunOf(w, names[i], s).Patch? then RunOf(w, names[i], s).changes else [])
  {
    hide RunOf;
    if names != [] {
      OutputsAre(w, names[1..], s);
    }
  }

  /** The patches of a level that succeeds are those its nodes give, each once. */
  lemma LevelOutputs(w: Workflow, k: nat, s: State)
    requires Valid(w) && AllSucceed(w, Level(w, k), s)
    ensures var level, out := Level(w, k), Outputs(w, Level(w, k), s);
            && |out| == |level| && NoDup(level)
            && (forall i :: 0 <= i < |out| ==> out[i].id == level[i] && Gives(w, k, s, Id(level[i]), out[i].changes))
            && (forall x :: AtDepth(w, k, x) ==> x.name in level && x == Id(x.name))
  {
    hide Acyclic, UniqueIds, KnownDeps, ChainLength, Level, Rising;
    LevelIs(w, k);
    RisingIsSorted(Level(w, k));
    OutputsAre(w, Level(w, k), s);
    forall i | 0 <= i < |Level(w, k)| ensures Gives(w, k, s, Id(Level(w, k)[i]), Outputs(w, Level(w, k), s)[i].changes) {
      assert Level(w, k)[i] in Level(w, k);
      assert RunOf(w, Level(w, k)[i], s).Patch?;
    }
  }

  /** A level fails in a node exactly if one of its nodes fails on the state. */
  lemma FailsIff(w: Workflow, k: nat, s: State)
    requires Valid(w)
    ensures RunLevel(w, k, s).NodeFails? <==> exists x :: AtDepth(w, k, x) && x in w.run && w.run[x](s).Fail?
  {
    hide Acyclic, UniqueIds, KnownDeps, ChainLength, Level, Rising, Merged, Outputs;
    LevelIs(w, k);
    if RunLevel(w, k, s).NodeFails? {
      var n :| n in Level(w, k) && !RunOf(w, n, s).Patch?;
      assert AtDepth(w, k, Id(n));
    }
    if x :| AtDepth(w, k, x) && x in w.run && w.run[x](s).Fail? {
      assert x == Id(x.name);
      assert x.name in Level(w, k);
      assert !RunOf(w, x.name, s).Patch?;
    }
  }

  /** Some node's patch has a change that offends. */
  ghost predicate Spoils(w: Workflow, k: nat, s: State)
    requires Acyclic(w.g)
  {
    exists x, changes, j: nat :: Gives(w, k, s, x, changes) && j < |changes| && Offends(changes, j)
  }

  /** The patches of two nodes write the same field. */
  ghost predicate Clashes(w: Workflow, k: nat, s: State)
    requires Acyclic(w.g)
  {
    exists x, y, c, d, f :: x != y && Gives(w, k, s, x, c) && Gives(w, k, s, y, d) && WritesIn(c, f) && WritesIn(d, f)
  }

  lemma SpoilsIff(w: Workflow, k: nat, s: State)
    requires Valid(w) && AllSucceed(w, Level(w, k), s)
    ensures Spoils(w, k, s) <==> !Clean(Outputs(w, Level(w, k), s))
  {
    hide Acyclic, WellFormed, ChainLength, Level, AllSucceed, Outputs, Offends;
    var level, out := Level(w, k), Outputs(w, Level(w, k), s);
    LevelOutputs(w, k, s);
    if Spoils(w, k, s) {
      var x, changes, j: nat :| Gives(w, k, s, x, changes) && j < |changes| && Offends(changes, j);
      var i :| 0 <= i < |level| && level[i] == x.name;
      assert Gives(w, k, s, Id(level[i]), out[i].changes);
    }
    if !Clean(out) {
      var i: nat, j: nat :| i < |out| && j < |out[i].changes| && Offends(out[i].changes, j);
      assert Gives(w, k, s, Id(level[i]), out[i].changes);
    }
  }

  lemma ClashShared(w: Workflow, k: nat, s: State)
    requires Valid(w) && AllSucceed(w, Level(w, k), s) && Clashes(w, k, s)
    ensures exists f :: Shared(Outputs(w, Level(w, k), s), f)
  {
    hide Acyclic, WellFormed, ChainLength, Level, AllSucceed, Outputs, WritesIn;
    var level, out := Level(w, k), Outputs(w, Level(w, k), s);
    LevelOutputs(w, k, s);
    var x, y, c, d, f :| x != y && Gives(w, k, s, x, c) && Gives(w, k, s, y, d) && WritesIn(c, f) && WritesIn(d, f);
    var i :| 0 <= i < |level| && level[i] == x.name;
    var j :| 0 <= j < |level| && level[j] == y.name;
    hide AtDepth;
    assert Gives(w, k, s, Id(level[i]), out[i].changes) && Gives(w, k, s, Id(level[j]), out[j].changes);
    assert Shared(out, f);
  }

  lemma SharedClash(w: Workflow, k: nat, s: State)
    requires Valid(w) && AllSucceed(w, Level(w, k), s) && exists f :: Shared(Outputs(w, Level(w, k), s), f)
    ensures Clashes(w, k, s)
  {
    hide Acyclic, WellFormed, ChainLength, Level, AllSucceed, Outputs, WritesIn, Gives, AtDepth;
    var level, out := Level(w, k), Outputs(w, Level(w, k), s);
    LevelOutputs(w, k, s);
    var f :| Shared(out, f);
    var i, j :| 0 <= i < j < |out| && WritesIn(out[i].changes, f) && WritesIn(out[j].changes, f);
    assert Gives(w, k, s, Id(level[i]), out[i].changes) && Gives(w, k, s, Id(level[j]), out[j].changes);
    assert level[i] != level[j];
  }

  /** A level commits exactly if all its nodes succeed on the state, no change of theirs offends, and no two of them write
      the same field. */
  lemma CommitsIff(w: Workflow, k: nat, s: State)
    requires Valid(w)
    ensures RunLevel(w, k, s).Commits?
            <==> (forall x :: AtDepth(w, k, x) ==> x in w.run && w.run[x](s).Patch?) && !Spoils(w, k, s) && !Clashes(w, k, s)
  {
    hide Acyclic, WellFormed, ChainLength, Level, Outputs, Merged, Spoils, Clashes, AtDepth, Shared;
    FailsIff(w, k, s);
    if AllSucceed(w, Level(w, k), s) {
      SpoilsIff(w, k, s);
      if Clashes(w, k, s) {
        ClashShared(w, k, s);
      } else if exists f :: Shared(Outputs(w, Level(w, k), s), f) {
        SharedClash(w, k, s);
      }
      MergesIff(Outputs(w, Level(w, k), s), s);
    }
    forall x | AtDepth(w, k, x) ensures x in w.run {
      assert x in Ids(w.g) by { IsKnown(w, k, x); }
    }
  }

  lemma IsKnown(w: Workflow, k: nat, x: Id)
    requires Acyclic(w.g) && AtDepth(w, k, x)
    ensures x in Ids(w.g)
  {
  }

  /** The state a level commits to: every field that one of its patches writes has the value written there, and every other
      is as it was. */
  lemma CommitsTo(w: Workflow, k: nat, s: State, f: Field)
    requires Valid(w) && RunLevel(w, k, s).Commits?
    ensures var t := RunLevel(w, k, s).state;
            && (forall x, changes, v :: Gives(w, k, s, x, changes) && Write(f, v) in changes ==> f in t && t[f] == v)
            && ((forall x, changes, v :: Gives(w, k, s, x, changes) ==> Write(f, v) !in changes) ==>
                  (f in t <==> f in s) && (f in s ==> t[f] == s[f]))
  {
    hide Acyclic, WellFormed, ChainLength, Level, Outputs, Merged, AllSucceed, ApplyAll, Mergeable;
    var level, out, t := Level(w, k), Outputs(w, Level(w, k), s), RunLevel(w, k, s).state;
    LevelOutputs(w, k, s);
    MergesExactly(out, s);
    assert t == ApplyAll(out, s);
    MergedMeans(out, s, f);
    forall x, changes, v | Gives(w, k, s, x, changes) && Write(f, v) in changes ensures f in t && t[f] == v {
      var i :| 0 <= i < |level| && level[i] == x.name;
      assert Gives(w, k, s, Id(level[i]), out[i].changes);
      assert out[i] in out;
    }
    if forall x, changes, v :: Gives(w, k, s, x, changes) ==> Write(f, v) !in changes {
      forall r, v | r in out ensures Write(f, v) !in r.changes {
        var i :| 0 <= i < |out| && out[i] == r;
        assert Gives(w, k, s, Id(level[i]), out[i].changes);
      }
    }
  }
}
