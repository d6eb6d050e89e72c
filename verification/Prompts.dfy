/** What a built prompt consists of, source by source: the other reading of the definitions in ContextBuilder. */
module Prompts {
  import opened Compressors
  import opened ContextBuilder

  /** What the sources answered: those that must be included are asked for everything, the others for a quota. */
  ghost predicate Delivered(sources: seq<Source>, quota: int, raw: seq<seq<Message>>) {
    && |raw| == |sources|
    && forall i :: 0 <= i < |sources| ==>
         var f := sources[i].fetch(if sources[i].must then 0 else quota);
         raw[i] == if f.Got? then f.messages else []
  }

  /** A source's report before anything is cut: what it left open is filled in from its answer. */
  ghost predicate Reported(f: Fetch, est: Message -> nat, rep: Report) {
    && rep.droppedN == f.report.droppedN
    && match f
       case Error(own) => rep == own.(status := Errored)
       case Got(messages, own) =>
         && (own.status != Unset ==> rep.status == own.status)
         && (own.status == Unset ==> (if messages != [] then rep.status == Fine else rep.status == Skipped))
         && (own.outputN != 0 ==> rep.outputN == own.outputN) && (own.outputN == 0 ==> rep.outputN == |messages|)
         && (own.tokens != 0 ==> rep.tokens == own.tokens) && (own.tokens == 0 ==> rep.tokens == Sum(messages, est))
  }

  /** A source's report after k messages are cut from its head and kept is left. */
  ghost predicate Recounted(before: Report, k: nat, kept: seq<Message>, est: Message -> nat, rep: Report) {
    if k == 0 then rep == before
    else
      && rep.droppedN == before.droppedN + k && rep.outputN == |kept| && rep.tokens == Sum(kept, est)
      && (before.status == Errored ==> rep.status == Errored) && (before.status != Errored ==> rep.status == Truncated)
  }

  /** k[i] messages are cut from the head of what source i delivered: nothing of what must be included, and nothing of an
      optional source while one before it has anything left. */
  ghost predicate CutsHead(sources: seq<Source>, raw: seq<seq<Message>>, emitted: seq<seq<Message>>, k: seq<nat>) {
    && |k| == |raw| == |emitted| == |sources|
    && (forall i :: 0 <= i < |sources| ==> k[i] <= |raw[i]| && emitted[i] == raw[i][k[i]..])
    && (forall i :: 0 <= i < |sources| && sources[i].must ==> k[i] == 0)
    && (forall i, j :: 0 <= i < j < |sources| && !sources[i].must && !sources[j].must && k[j] > 0 ==> k[i] == |raw[i]|)
  }

  /** i is the last source of which something is cut. */
  ghost predicate LastCut(sources: seq<Source>, k: seq<nat>, i: nat) {
    && i < |sources| == |k| && k[i] > 0
    && forall j :: i < j < |sources| ==> k[j] == 0
  }

  /** Where the i-th part begins when the parts are put one after another. */
  ghost function Begins(parts: seq<seq<Message>>, i: nat): nat
    requires i <= |parts|
  {
    if i == 0 then 0 else Begins(parts, i - 1) + |parts[i - 1]|
  }

  /** The parts one after another, and nothing else. */
  ghost predicate LaidOut(parts: seq<seq<Message>>, messages: seq<Message>) {
    && |messages| == Begins(parts, |parts|)
    && forall i: nat :: i < |parts| ==>
         && Begins(parts, i) + |parts[i]| <= |messages|
         && messages[Begins(parts, i)..Begins(parts, i) + |parts[i]|] == parts[i]
  }

  lemma {:induction false} BeginsPrefix(parts: seq<seq<Message>>, n: nat, i: nat)
    requires i <= n <= |parts|
    ensures Begins(parts[..n], i) == Begins(parts, i)
  {
    if i > 0 {
      BeginsPrefix(parts, n, i - 1);
    }
  }

  lemma BeginsNext(parts: seq<seq<Message>>, i: nat)
    requires i < |parts|
    ensures Begins(parts, i + 1) == Begins(parts, i) + |parts[i]|
  {
  }

  lemma LaidOutNext(parts: seq<seq<Message>>, last: nat, rest: seq<Message>)
    requires |parts| == last + 1 && LaidOut(parts[..last], rest)
    ensures LaidOut(parts, rest + parts[last])
  {
    hide Begins;
    BeginsPrefix(parts, last, last);
    BeginsNext(parts, last);
    var more := rest + parts[last];
    forall i: nat | i < |parts|
      ensures Begins(parts, i) + |parts[i]| <= |more| && more[Begins(parts, i)..Begins(parts, i) + |parts[i]|] == parts[i]
    {
      var at := Begins(parts, i);
      if i < last {
        BeginsPrefix(parts, last, i);
        assert parts[..last][i] == parts[i];
        assert more[at..at + |parts[i]|] == rest[at..at + |parts[i]|];
      }
    }
  }

  lemma {:induction false} ConcatLaidOut(parts: seq<seq<Message>>)
    ensures LaidOut(parts, Concat(parts))
  {
    hide LaidOut;
    if parts == [] {
      NothingLaidOut();
    } else {
      var last := |parts| - 1;
      ConcatLaidOut(parts[..last]);
      LaidOutNext(parts, last, Concat(parts[..last]));
    }
  }

  lemma NothingLaidOut()
    ensures LaidOut([], Concat([]))
  {
  }

  // ---- how much is cut of each source

  lemma CutOf(sources: seq<Source>, raw: seq<seq<Message>>, emitted: seq<seq<Message>>, d: nat, i: nat)
    requires i < |sources| == |raw| == |emitted| && d <= |Merged(sources, raw, |sources|)|
    requires TrimmedSlot(sources, raw, emitted, d, i)
    ensures |emitted[i]| <= |raw[i]| && emitted[i] == raw[i][|raw[i]| - |emitted[i]|..]
    ensures |raw[i]| - |emitted[i]| == if sources[i].must then 0 else Clamp(d - |Merged(sources, raw, i)|, |raw[i]|)
  {
    hide Of, Merged, Clamp;
    KeptIsTail(sources, raw, emitted, d, i);
    if !sources[i].must {
      var m := Merged(sources, raw, |sources|);
      HeadCount(sources, raw, |sources|, d, i);
      OfMerged(sources, raw, |sources|, i);
      OfAppend(m[..d], m[d..], i);
      assert m[..d] + m[d..] == m;
    }
  }

  lemma MergedGrows(sources: seq<Source>, raw: seq<seq<Message>>, i: nat, j: nat)
    requires i < j <= |sources| == |raw| && !sources[i].must
    ensures |Merged(sources, raw, i)| + |raw[i]| <= |Merged(sources, raw, j)|
  {
    hide Merged, Block;
    MergedNext(sources, raw, i + 1);
    PartSize(sources, raw, i);
    MergedIsPrefix(sources, raw, i + 1, j);
  }

  /** If nothing is cut behind source i, the cut ends in it. */
  lemma {:induction false} CutEnds(sources: seq<Source>, raw: seq<seq<Message>>, d: nat, i: nat, n: nat)
    requires i < n <= |sources| == |raw| && d <= |Merged(sources, raw, n)|
    requires forall j :: i < j < n && !sources[j].must ==> Clamp(d - |Merged(sources, raw, j)|, |raw[j]|) == 0
    ensures d <= |Merged(sources, raw, i + 1)|
    decreases n
  {
    hide Merged, Block;
    if n > i + 1 {
      MergedNext(sources, raw, n);
      PartSize(sources, raw, n - 1);
      CutEnds(sources, raw, d, i, n - 1);
    }
  }

  /** The last message cut, among all the optional ones. */
  lemma LastOfCut(sources: seq<Source>, raw: seq<seq<Message>>, d: nat, i: nat, k: nat)
    requires i < |sources| == |raw| && !sources[i].must && 0 < k <= |raw[i]| && d == |Merged(sources, raw, i)| + k
    requires d <= |Merged(sources, raw, |sources|)|
    ensures Merged(sources, raw, |sources|)[d - 1].msg == raw[i][k - 1]
  {
    hide Merged;
    MergedIsPrefix(sources, raw, i + 1, |sources|);
    MergedNext(sources, raw, i + 1);
    PartSize(sources, raw, i);
    var part := Merged(sources, raw, i + 1);
    assert Merged(sources, raw, |sources|)[d - 1] == part[d - 1];
    assert part[d - 1] == Part(sources, raw, i)[k - 1];
  }

  lemma CostHead(refs: seq<Ref>, est: Message -> nat, d: nat)
    requires 0 < d <= |refs|
    ensures Cost(refs[d - 1..], est) == est(refs[d - 1].msg) + Cost(refs[d..], est)
  {
    assert refs[d - 1..][1..] == refs[d..];
  }

  lemma WithoutOptional(sources: seq<Source>, emitted: seq<seq<Message>>)
    requires |sources| == |emitted| && Merged(sources, emitted, |sources|) == []
    ensures forall i :: 0 <= i < |sources| && !sources[i].must ==> emitted[i] == []
  {
    hide Merged, Of;
    forall i | 0 <= i < |sources| && !sources[i].must ensures emitted[i] == [] {
      OfMerged(sources, emitted, |sources|, i);
      OfNone(i);
    }
  }

  // ---- the whole prompt

  /** What is cut of each source. */
  ghost function CutBy(raw: seq<seq<Message>>, emitted: seq<seq<Message>>): seq<nat>
    requires |raw| == |emitted| && forall i :: 0 <= i < |raw| ==> |emitted[i]| <= |raw[i]|
  {
    seq(|raw|, i requires 0 <= i < |raw| => |raw[i]| - |emitted[i]|)
  }

  lemma TrimCutsHead(sources: seq<Source>, raw: seq<seq<Message>>, emitted: seq<seq<Message>>, d: nat) returns (k: seq<nat>)
    requires |sources| == |raw| == |emitted| && d <= |Merged(sources, raw, |sources|)|
    requires forall i :: 0 <= i < |sources| ==> TrimmedSlot(sources, raw, emitted, d, i)
    ensures CutsHead(sources, raw, emitted, k)
    ensures forall i :: 0 <= i < |sources| ==> k[i] == if sources[i].must then 0 else Clamp(d - |Merged(sources, raw, i)|, |raw[i]|)
  {
    hide Merged, TrimmedSlot;
    forall i | 0 <= i < |sources| ensures |emitted[i]| <= |raw[i]| {
      CutOf(sources, raw, emitted, d, i);
    }
    k := CutBy(raw, emitted);
    forall i | 0 <= i < |sources|
      ensures emitted[i] == raw[i][k[i]..]
      ensures k[i] == if sources[i].must then 0 else Clamp(d - |Merged(sources, raw, i)|, |raw[i]|)
    {
      CutOf(sources, raw, emitted, d, i);
    }
    forall i, j | 0 <= i < j < |sources| && !sources[i].must && !sources[j].must && k[j] > 0 ensures k[i] == |raw[i]| {
      MergedGrows(sources, raw, i, j);
    }
  }

  /** The last message cut would not have fitted with those kept. */
  lemma CutIsTight(sources: seq<Source>, raw: seq<seq<Message>>, emitted: seq<seq<Message>>, est: Message -> nat, available: int,
                   d: nat, k: seq<nat>, i: nat)
    requires |sources| == |raw| == |emitted| == |k| && ShortestCut(Merged(sources, raw, |sources|), est, available, d)
    requires forall j :: 0 <= j < |sources| ==> TrimmedSlot(sources, raw, emitted, d, j)
    requires forall j :: 0 <= j < |sources| ==> k[j] == if sources[j].must then 0 else Clamp(d - |Merged(sources, raw, j)|, |raw[j]|)
    requires LastCut(sources, k, i) && k[i] <= |raw[i]|
    ensures est(raw[i][k[i] - 1]) + SlotTokens(sources, emitted, est, false, |sources|) > available
  {
    hide Merged, TrimmedSlot, Cost, SlotTokens, Of;
    var m := Merged(sources, raw, |sources|);
    CutEnds(sources, raw, d, i, |sources|);
    MergedNext(sources, raw, i + 1);
    PartSize(sources, raw, i);
    LastOfCut(sources, raw, d, i, k[i]);
    CostHead(m, est, d);
    TrimmedCost(sources, raw, emitted, est, d);
  }

  lemma {:induction false} DroppedIs(before: seq<Report>, after: seq<Report>, own: seq<nat>, k: seq<nat>)
    requires |before| == |after| == |own| == |k|
    requires forall i :: 0 <= i < |k| ==> own[i] == before[i].droppedN && after[i].droppedN == own[i] + k[i]
    ensures DroppedSum(after) == Total(own) + Total(k)
  {
    if k != [] {
      var last := |k| - 1;
      DroppedIs(before[..last], after[..last], own[..last], k[..last]);
    }
  }

  lemma FetchedIsReported(s: Source, quota: int, est: Message -> nat, raw: seq<Message>, rep: Report)
    requires Fetched(s, quota, est, raw, rep)
    ensures Reported(s.fetch(if s.must then 0 else quota), est, rep)
  {
    hide Sum;
  }

  lemma TrimmedIsRecounted(before: Report, after: Report, raw: seq<Message>, kept: seq<Message>, k: nat, est: Message -> nat)
    requires TrimmedReport(before, after, raw, kept, est) && k <= |raw| && kept == raw[k..]
    ensures Recounted(before, k, kept, est, after) && after.droppedN == before.droppedN + k
  {
    hide Sum;
  }

  lemma UncutIsRecounted(before: Report, raw: seq<Message>, est: Message -> nat)
    ensures Recounted(before, 0, raw, est, before)
  {
  }

  /** A built prompt, whatever the sources are: what they answered, less what is cut from the head of the optional answers
      taken in order, laid out in order. Without a window nothing is cut. With one the optional messages kept fit into what
      the charge leaves, unless none is kept; and the last one cut would not have fitted as well. Every report tells what
      came of its source, and the number dropped is what the sources report and what is cut. */
  lemma PromptMeans(sources: seq<Source>, b: Budget, est: Message -> nat, raw: seq<seq<Message>>, before: seq<Report>, d: nat,
                    emitted: seq<seq<Message>>, built: Built) returns (own: seq<nat>, k: seq<nat>)
    requires BuildOk(sources, b, est, raw, before, d, emitted, built)
    ensures Delivered(sources, if b.window == 0 then 0 else built.available, raw)
    ensures CutsHead(sources, raw, emitted, k) && LaidOut(emitted, built.messages)
    ensures b.window == 0 ==> forall i :: 0 <= i < |k| ==> k[i] == 0
    ensures forall i :: 0 <= i < |sources| ==>
              && Reported(sources[i].fetch(if sources[i].must || b.window == 0 then 0 else built.available), est, before[i])
              && Recounted(before[i], k[i], emitted[i], est, built.reports[i])
    ensures b.window != 0 ==>
              || SlotTokens(sources, emitted, est, false, |sources|) <= built.available
              || forall i :: 0 <= i < |sources| && !sources[i].must ==> emitted[i] == []
    ensures b.window != 0 ==> forall i: nat :: LastCut(sources, k, i) ==>
              est(raw[i][k[i] - 1]) + SlotTokens(sources, emitted, est, false, |sources|) > built.available
    ensures |own| == |sources| && (forall i :: 0 <= i < |sources| ==> own[i] == before[i].droppedN)
    ensures built.dropped == Total(own) + Total(k)
  {
    hide Merged, TrimmedSlot, Cost, SlotTokens, Concat, Sum, DroppedSum, Total, Fixed, LaidOut, Reported, Recounted, TrimmedReport;
    forall i | 0 <= i < |sources|
      ensures var f := sources[i].fetch(if sources[i].must then 0 else if b.window == 0 then 0 else built.available);
              raw[i] == if f.Got? then f.messages else []
    {
      assert Fetched(sources[i], if b.window == 0 then 0 else built.available, est, raw[i], before[i]);
    }
    ConcatLaidOut(emitted);
    own := seq(|sources|, i requires 0 <= i < |sources| => before[i].droppedN);
    if b.window == 0 {
      k := seq(|sources|, i => 0);
    } else {
      k := TrimCutsHead(sources, raw, emitted, d);
      Fits(sources, raw, emitted, est, built.available, d);
      forall i: nat | LastCut(sources, k, i)
        ensures est(raw[i][k[i] - 1]) + SlotTokens(sources, emitted, est, false, |sources|) > built.available
      {
        CutIsTight(sources, raw, emitted, est, built.available, d, k, i);
      }
    }
    forall i | 0 <= i < |sources|
      ensures Reported(sources[i].fetch(if sources[i].must || b.window == 0 then 0 else built.available), est, before[i])
      ensures Recounted(before[i], k[i], emitted[i], est, built.reports[i]) && built.reports[i].droppedN == own[i] + k[i]
    {
      var quota := if b.window == 0 then 0 else built.available;
      assert Fetched(sources[i], quota, est, raw[i], before[i]);
      FetchedIsReported(sources[i], quota, est, raw[i], before[i]);
      if b.window == 0 {
        UncutIsRecounted(before[i], raw[i], est);
      } else {
        TrimmedIsRecounted(before[i], built.reports[i], raw[i], emitted[i], k[i], est);
      }
    }
    DroppedIs(before, built.reports, own, k);
  }

  lemma Fits(sources: seq<Source>, raw: seq<seq<Message>>, emitted: seq<seq<Message>>, est: Message -> nat, available: int, d: nat)
    requires |sources| == |raw| == |emitted| && ShortestCut(Merged(sources, raw, |sources|), est, available, d)
    requires forall j :: 0 <= j < |sources| ==> TrimmedSlot(sources, raw, emitted, d, j)
    ensures || SlotTokens(sources, emitted, est, false, |sources|) <= available
            || forall i :: 0 <= i < |sources| && !sources[i].must ==> emitted[i] == []
  {
    hide Merged, TrimmedSlot, Cost, SlotTokens;
    TrimmedCost(sources, raw, emitted, est, d);
    if d == |Merged(sources, raw, |sources|)| {
      TrimDropsHead(sources, raw, emitted, d);
      WithoutOptional(sources, emitted);
    }
  }
}
