/** Assembling a prompt under a window: fixed content is charged first, optional content is trimmed from its head. */
module ContextBuilder {
  import opened Wrappers
  import opened Compressors

  datatype Message = Message(text: string)

  datatype Status = Unset | Fine | Skipped | Truncated | Errored

  datatype Report = Report(status: Status, outputN: nat, tokens: nat, droppedN: nat)

  datatype Fetch = Got(messages: seq<Message>, report: Report) | Error(report: Report)

  /** A source answers for a quota; 0 is passed to those that must be included, and when there is no window. */
  datatype Source = Source(must: bool, system: bool, fetch: int -> Fetch)

  datatype Budget = Budget(window: int, reservedOutput: int, reservedTools: int, reservedSystem: int)

  datatype BuildError = InvalidBudget | SourceFailed(index: nat) | FixedOverflow(fixed: int, window: int)

  datatype Built = Built(messages: seq<Message>, reservedSystem: int, available: int, outputTokens: nat, dropped: nat, reports: seq<Report>)

  /** A source's answer with the report filled in where the source left it open. */
  function Normal(f: Fetch, est: Message -> nat): Fetch {
    match f
    case Error(rep) => Error(rep.(status := Errored))
    case Got(msgs, rep) =>
      Got(msgs, Report(if rep.status.Unset? then if msgs == [] then Skipped else Fine else rep.status,
                       if rep.outputN == 0 then |msgs| else rep.outputN,
                       if rep.tokens == 0 then Sum(msgs, est) else rep.tokens,
                       rep.droppedN))
  }

  // ---- trimming

  /** An optional message and the slot it came from. */
  datatype Ref = Ref(slot: nat, msg: Message)

  function Block(slot: nat, msgs: seq<Message>): seq<Ref> {
    seq(|msgs|, i requires 0 <= i < |msgs| => Ref(slot, msgs[i]))
  }

  /** The optional messages of the first n slots, in declaration order. */
  function Merged(sources: seq<Source>, emitted: seq<seq<Message>>, n: nat): seq<Ref>
    requires n <= |emitted| == |sources|
  {
    if n == 0 then [] else Merged(sources, emitted, n - 1) + if sources[n - 1].must then [] else Block(n - 1, emitted[n - 1])
  }

  function Cost(refs: seq<Ref>, est: Message -> nat): nat {
    if refs == [] then 0 else est(refs[0].msg) + Cost(refs[1..], est)
  }

  /** The messages of one slot. */
  function Of(refs: seq<Ref>, slot: nat): seq<Message> {
    if refs == [] then [] else Of(refs[..|refs| - 1], slot) + if refs[|refs| - 1].slot == slot then [refs[|refs| - 1].msg] else []
  }

  lemma {:induction false} OfAppend(a: seq<Ref>, b: seq<Ref>, slot: nat)
    ensures Of(a + b, slot) == Of(a, slot) + Of(b, slot)
    decreases |b|
  {
    if b == [] {
      assert a + b == a;
    } else {
      var last := |b| - 1;
      OfAppend(a, b[..last], slot);
      assert (a + b)[..|a + b| - 1] == a + b[..last];
    }
  }

  lemma {:induction false} OfBlock(s: nat, msgs: seq<Message>, slot: nat)
    ensures Of(Block(s, msgs), slot) == if s == slot then msgs else []
    decreases |msgs|
  {
    if msgs != [] {
      var last := |msgs| - 1;
      OfBlock(s, msgs[..last], slot);
      assert Block(s, msgs)[..last] == Block(s, msgs[..last]);
      assert msgs == msgs[..last] + [msgs[last]];
    }
  }

  lemma OfNone(slot: nat)
    ensures Of([], slot) == []
  {
  }

  lemma {:induction false} OfMerged(sources: seq<Source>, emitted: seq<seq<Message>>, n: nat, slot: nat)
    requires n <= |emitted| == |sources|
    ensures Of(Merged(sources, emitted, n), slot) == if slot < n && !sources[slot].must then emitted[slot] else []
  {
    hide Of, Block;
    OfNone(slot);
    if n > 0 {
      OfMerged(sources, emitted, n - 1, slot);
      var block := if sources[n - 1].must then [] else Block(n - 1, emitted[n - 1]);
      OfAppend(Merged(sources, emitted, n - 1), block, slot);
      OfBlock(n - 1, emitted[n - 1], slot);
    }
  }

  lemma {:induction false} CostGrows(refs: seq<Ref>, est: Message -> nat, j: nat, k: nat)
    requires j <= k <= |refs|
    ensures Cost(refs[k..], est) <= Cost(refs[j..], est)
    decreases k - j
  {
    if j < k {
      CostGrows(refs, est, j + 1, k);
      assert refs[j..][1..] == refs[j + 1..];
    }
  }

  /** The shortest head whose removal makes the rest fit. */
  ghost predicate ShortestCut(refs: seq<Ref>, est: Message -> nat, available: int, d: nat) {
    && d <= |refs| && (Cost(refs[d..], est) <= available || d == |refs|)
    && forall j :: 0 <= j < d ==> Cost(refs[j..], est) > available
  }

  /** Messages after trimming: a must-slot keeps all, an optional one what is left of it behind the cut. */
  ghost predicate TrimmedSlot(sources: seq<Source>, raw: seq<seq<Message>>, emitted: seq<seq<Message>>, d: nat, i: nat)
    requires i < |sources| == |raw| == |emitted| && d <= |Merged(sources, raw, |sources|)|
  {
    emitted[i] == if sources[i].must then raw[i] else Of(Merged(sources, raw, |sources|)[d..], i)
  }

  /** A slot's report says how many were dropped and what is left; an untouched slot keeps its report. */
  ghost predicate TrimmedReport(before: Report, after: Report, raw: seq<Message>, kept: seq<Message>, est: Message -> nat) {
    if kept == raw then after == before
    else
      && after.droppedN == before.droppedN + |raw| - |kept|
      && after.outputN == |kept| && after.tokens == Sum(kept, est)
      && after.status == if before.status.Errored? then Errored else Truncated
  }

  /** What a slot keeps is the tail of what it had. */
  lemma KeptIsTail(sources: seq<Source>, raw: seq<seq<Message>>, emitted: seq<seq<Message>>, d: nat, i: nat)
    requires i < |sources| == |raw| == |emitted| && d <= |Merged(sources, raw, |sources|)|
    requires TrimmedSlot(sources, raw, emitted, d, i)
    ensures |emitted[i]| <= |raw[i]| && emitted[i] == raw[i][|raw[i]| - |emitted[i]|..]
  {
    hide Of, Merged;
    var m := Merged(sources, raw, |sources|);
    if !sources[i].must {
      OfMerged(sources, raw, |sources|, i);
      OfAppend(m[..d], m[d..], i);
      assert m == m[..d] + m[d..];
    }
  }

  // ---- the kept messages are the merged ones behind the cut

  lemma {:induction false} MergedIsPrefix(sources: seq<Source>, raw: seq<seq<Message>>, m: nat, n: nat)
    requires m <= n <= |sources| == |raw|
    ensures Merged(sources, raw, m) <= Merged(sources, raw, n)
    decreases n
  {
    if m < n {
      MergedIsPrefix(sources, raw, m, n - 1);
    }
  }

  function Clamp(x: int, hi: nat): (r: nat)
    ensures r <= hi
  {
    if x < 0 then 0 else if x > hi then hi else x
  }

  lemma OfBlockHead(s: nat, msgs: seq<Message>, k: nat, slot: nat)
    requires k <= |msgs|
    ensures Of(Block(s, msgs)[..k], slot) == if s == slot then msgs[..k] else []
  {
    hide Of;
    assert Block(s, msgs)[..k] == Block(s, msgs[..k]);
    OfBlock(s, msgs[..k], slot);
  }

  function Part(sources: seq<Source>, raw: seq<seq<Message>>, s: nat): seq<Ref>
    requires s < |sources| == |raw|
  {
    if sources[s].must then [] else Block(s, raw[s])
  }

  lemma MergedNext(sources: seq<Source>, raw: seq<seq<Message>>, n: nat)
    requires 0 < n <= |sources| == |raw|
    ensures Merged(sources, raw, n) == Merged(sources, raw, n - 1) + Part(sources, raw, n - 1)
  {
    hide Block;
  }

  lemma OfHead(a: seq<Ref>, d: nat, slot: nat)
    requires d <= |a| && Of(a, slot) == []
    ensures Of(a[..d], slot) == []
  {
    hide Of;
    OfAppend(a[..d], a[d..], slot);
    assert a[..d] + a[d..] == a;
  }

  /** How much of the first d merged messages comes from one slot. */
  lemma {:induction false} HeadCount(sources: seq<Source>, raw: seq<seq<Message>>, n: nat, d: nat, slot: nat)
    requires slot < n <= |sources| == |raw| && !sources[slot].must && d <= |Merged(sources, raw, n)|
    ensures |Of(Merged(sources, raw, n)[..d], slot)| == Clamp(d - |Merged(sources, raw, slot)|, |raw[slot]|)
    decreases n
  {
    hide Of, Block, Merged, Part;
    var init, whole, part := Merged(sources, raw, n - 1), Merged(sources, raw, n), Part(sources, raw, n - 1);
    MergedNext(sources, raw, n);
    OfMerged(sources, raw, n - 1, slot);
    if d <= |init| {
      assert whole[..d] == init[..d];
      if slot < n - 1 {
        HeadCount(sources, raw, n - 1, d, slot);
      } else {
        OfHead(init, d, slot);
      }
    } else {
      var k := d - |init|;
      assert whole[..d] == init + part[..k];
      OfAppend(init, part[..k], slot);
      OfPart(sources, raw, n - 1, k, slot);
      PartSize(sources, raw, slot);
      if slot < n - 1 {
        MergedIsPrefix(sources, raw, slot + 1, n - 1);
        MergedNext(sources, raw, slot + 1);
      }
    }
  }

  lemma PartSize(sources: seq<Source>, raw: seq<seq<Message>>, s: nat)
    requires s < |sources| == |raw|
    ensures |Part(sources, raw, s)| == if sources[s].must then 0 else |raw[s]|
  {
  }

  lemma OfPart(sources: seq<Source>, raw: seq<seq<Message>>, s: nat, k: nat, slot: nat)
    requires s < |sources| == |raw| && k <= |Part(sources, raw, s)|
    ensures |Of(Part(sources, raw, s)[..k], slot)| == if s == slot && !sources[s].must then k else 0
  {
    hide Of;
    PartSize(sources, raw, s);
    if sources[s].must {
      OfNone(slot);
    } else {
      OfBlockHead(s, raw[s], k, slot);
    }
  }

  lemma BlockSize(s: nat, msgs: seq<Message>)
    ensures |Block(s, msgs)| == |msgs|
  {
  }

  lemma BlockTail(s: nat, msgs: seq<Message>, c: nat)
    requires c <= |msgs|
    ensures Block(s, msgs[c..]) == Block(s, msgs)[c..]
  {
  }

  lemma JoinTail<T>(a: seq<T>, b: seq<T>, d: nat)
    ensures (a + b)[Clamp(d, |a + b|)..] == a[Clamp(d, |a|)..] + b[Clamp(d - |a|, |b|)..]
  {
  }

  lemma TrimmedPart(sources: seq<Source>, raw: seq<seq<Message>>, emitted: seq<seq<Message>>, d: nat, s: nat)
    requires s < |sources| == |raw| == |emitted| && d <= |Merged(sources, raw, |sources|)|
    requires TrimmedSlot(sources, raw, emitted, d, s)
    ensures Part(sources, emitted, s)
            == Part(sources, raw, s)[Clamp(d - |Merged(sources, raw, s)|, |Part(sources, raw, s)|)..]
  {
    hide Of, Merged, Block;
    if !sources[s].must {
      var m := Merged(sources, raw, |sources|);
      KeptIsTail(sources, raw, emitted, d, s);
      HeadCount(sources, raw, |sources|, d, s);
      OfMerged(sources, raw, |sources|, s);
      OfAppend(m[..d], m[d..], s);
      assert m[..d] + m[d..] == m;
      BlockTail(s, raw[s], Clamp(d - |Merged(sources, raw, s)|, |raw[s]|));
      BlockSize(s, raw[s]);
    }
  }

  lemma {:induction false} MergedTail(sources: seq<Source>, raw: seq<seq<Message>>, emitted: seq<seq<Message>>, d: nat, n: nat)
    requires n <= |sources| == |raw| == |emitted| && d <= |Merged(sources, raw, |sources|)|
    requires forall i :: 0 <= i < |sources| ==> TrimmedSlot(sources, raw, emitted, d, i)
    ensures Merged(sources, emitted, n) == Merged(sources, raw, n)[Clamp(d, |Merged(sources, raw, n)|)..]
  {
    hide Part, TrimmedSlot, Merged, Clamp;
    if n == 0 {
      NoneMerged(sources, raw, emitted, d);
    } else {
      MergedTail(sources, raw, emitted, d, n - 1);
      TrimmedPart(sources, raw, emitted, d, n - 1);
      MergedNext(sources, emitted, n);
      MergedNext(sources, raw, n);
      JoinTail(Merged(sources, raw, n - 1), Part(sources, raw, n - 1), d);
    }
  }

  lemma NoneMerged(sources: seq<Source>, raw: seq<seq<Message>>, emitted: seq<seq<Message>>, d: nat)
    requires |sources| == |raw| == |emitted|
    ensures Merged(sources, emitted, 0) == Merged(sources, raw, 0)[Clamp(d, |Merged(sources, raw, 0)|)..]
  {
  }

  /** After trimming, the merged optional messages are what they were, less the first d. */
  lemma TrimDropsHead(sources: seq<Source>, raw: seq<seq<Message>>, emitted: seq<seq<Message>>, d: nat)
    requires |sources| == |raw| == |emitted| && d <= |Merged(sources, raw, |sources|)|
    requires forall i :: 0 <= i < |sources| ==> TrimmedSlot(sources, raw, emitted, d, i)
    ensures Merged(sources, emitted, |sources|) == Merged(sources, raw, |sources|)[d..]
  {
    MergedTail(sources, raw, emitted, d, |sources|);
  }

  // ---- tokens by slot

  /** Tokens of the slots below n that are of the given kind. */
  function SlotTokens(sources: seq<Source>, emitted: seq<seq<Message>>, est: Message -> nat, must: bool, n: nat): nat
    requires n <= |emitted| == |sources|
  {
    if n == 0 then 0
    else SlotTokens(sources, emitted, est, must, n - 1) + if sources[n - 1].must == must then Sum(emitted[n - 1], est) else 0
  }

  function Concat(emitted: seq<seq<Message>>): seq<Message> {
    if emitted == [] then [] else Concat(emitted[..|emitted| - 1]) + emitted[|emitted| - 1]
  }

  lemma {:induction false} ConcatTokens(sources: seq<Source>, emitted: seq<seq<Message>>, est: Message -> nat, n: nat)
    requires n <= |emitted| == |sources|
    ensures Sum(Concat(emitted[..n]), est) == SlotTokens(sources, emitted, est, true, n) + SlotTokens(sources, emitted, est, false, n)
  {
    if n > 0 {
      ConcatTokens(sources, emitted, est, n - 1);
      assert emitted[..n][..n - 1] == emitted[..n - 1];
      SumAppend(Concat(emitted[..n - 1]), emitted[n - 1], est);
    }
  }

  // ---- what is left costs what the slots now hold

  lemma {:induction false} CostAppend(a: seq<Ref>, b: seq<Ref>, est: Message -> nat)
    ensures Cost(a + b, est) == Cost(a, est) + Cost(b, est)
  {
    if a == [] {
      assert a + b == b;
    } else {
      assert (a + b)[1..] == a[1..] + b;
      CostAppend(a[1..], b, est);
    }
  }

  /** All slots of refs are below n. */
  ghost predicate SlotsBelow(refs: seq<Ref>, sources: seq<Source>, n: nat) {
    n <= |sources| && forall i :: 0 <= i < |refs| ==> refs[i].slot < n && !sources[refs[i].slot].must
  }

  function OfTokens(refs: seq<Ref>, sources: seq<Source>, est: Message -> nat, n: nat): nat
    requires n <= |sources|
  {
    if n == 0 then 0 else OfTokens(refs, sources, est, n - 1) + if sources[n - 1].must then 0 else Sum(Of(refs, n - 1), est)
  }

  lemma {:induction false} OfTokensAdd(refs: seq<Ref>, r: Ref, sources: seq<Source>, est: Message -> nat, n: nat)
    requires n <= |sources|
    ensures OfTokens(refs + [r], sources, est, n)
            == OfTokens(refs, sources, est, n) + if r.slot < n && !sources[r.slot].must then est(r.msg) else 0
  {
    hide Of, Sum;
    if n > 0 {
      OfTokensAdd(refs, r, sources, est, n - 1);
      OfAdd(refs, r, n - 1, est);
    }
  }

  lemma OfAdd(refs: seq<Ref>, r: Ref, slot: nat, est: Message -> nat)
    ensures Sum(Of(refs + [r], slot), est) == Sum(Of(refs, slot), est) + if r.slot == slot then est(r.msg) else 0
    ensures Of(refs + [r], slot) == Of(refs, slot) + if r.slot == slot then [r.msg] else []
  {
    assert (refs + [r])[..|refs|] == refs;
    if r.slot == slot {
      SumAppend(Of(refs, slot), [r.msg], est);
      assert Sum([r.msg], est) == est(r.msg);
    } else {
      assert Of(refs + [r], slot) == Of(refs, slot);
    }
  }

  lemma {:induction false} OfTokensNone(sources: seq<Source>, est: Message -> nat, n: nat)
    requires n <= |sources|
    ensures OfTokens([], sources, est, n) == 0
  {
    if n > 0 {
      OfTokensNone(sources, est, n - 1);
    }
  }

  /** Sorting references by slot loses nothing. */
  lemma {:induction false} CostBySlot(refs: seq<Ref>, sources: seq<Source>, est: Message -> nat)
    requires SlotsBelow(refs, sources, |sources|)
    ensures OfTokens(refs, sources, est, |sources|) == Cost(refs, est)
    decreases |refs|
  {
    if refs == [] {
      OfTokensNone(sources, est, |sources|);
    } else {
      var last := |refs| - 1;
      CostBySlot(refs[..last], sources, est);
      assert refs == refs[..last] + [refs[last]];
      OfTokensAdd(refs[..last], refs[last], sources, est, |sources|);
      CostAppend(refs[..last], [refs[last]], est);
      assert Cost([refs[last]], est) == est(refs[last].msg);
    }
  }

  lemma {:induction false} MergedSlots(sources: seq<Source>, raw: seq<seq<Message>>, n: nat)
    requires n <= |raw| == |sources|
    ensures SlotsBelow(Merged(sources, raw, n), sources, n)
  {
    if n > 0 {
      MergedSlots(sources, raw, n - 1);
    }
  }

  lemma {:induction false} OptionalTokens(sources: seq<Source>, raw: seq<seq<Message>>, emitted: seq<seq<Message>>, est: Message -> nat, d: nat, n: nat)
    requires n <= |sources| == |raw| == |emitted| && d <= |Merged(sources, raw, |sources|)|
    requires forall i :: 0 <= i < |sources| ==> TrimmedSlot(sources, raw, emitted, d, i)
    ensures SlotTokens(sources, emitted, est, false, n) == OfTokens(Merged(sources, raw, |sources|)[d..], sources, est, n)
    ensures SlotTokens(sources, emitted, est, true, n) == SlotTokens(sources, raw, est, true, n)
  {
    hide Of, Merged;
    if n > 0 {
      OptionalTokens(sources, raw, emitted, est, d, n - 1);
      assert TrimmedSlot(sources, raw, emitted, d, n - 1);
    }
  }

  /** After trimming at d, the optional slots hold exactly what the cut left, token for token. */
  lemma TrimmedCost(sources: seq<Source>, raw: seq<seq<Message>>, emitted: seq<seq<Message>>, est: Message -> nat, d: nat)
    requires |sources| == |raw| == |emitted| && d <= |Merged(sources, raw, |sources|)|
    requires forall i :: 0 <= i < |sources| ==> TrimmedSlot(sources, raw, emitted, d, i)
    ensures SlotTokens(sources, emitted, est, false, |sources|) == Cost(Merged(sources, raw, |sources|)[d..], est)
    ensures SlotTokens(sources, emitted, est, true, |sources|) == SlotTokens(sources, raw, est, true, |sources|)
  {
    hide Of, Merged;
    var m := Merged(sources, raw, |sources|);
    MergedSlots(sources, raw, |sources|);
    var rest := m[d..];
    forall i | 0 <= i < |rest| ensures rest[i].slot < |sources| && !sources[rest[i].slot].must {
      assert rest[i] == m[d + i];
    }
    OptionalTokens(sources, raw, emitted, est, d, |sources|);
    CostBySlot(rest, sources, est);
  }

  // ---- the trim as it runs

  /** The optional messages with their slots, and what they cost. */
  lemma NoBlock(slot: nat)
    ensures Block(slot, []) == []
  {
  }

  lemma EmptyCost(est: Message -> nat)
    ensures Cost([], est) == 0
  {
  }

  lemma BlockNext(slot: nat, msgs: seq<Message>, j: nat)
    requires j < |msgs|
    ensures Block(slot, msgs[..j + 1]) == Block(slot, msgs[..j]) + [Ref(slot, msgs[j])]
  {
  }

  lemma CostNext(refs: seq<Ref>, r: Ref, est: Message -> nat)
    ensures Cost(refs + [r], est) == Cost(refs, est) + est(r.msg)
  {
    CostAppend(refs, [r], est);
    assert [r][1..] == [];
  }

  method Gather(sources: seq<Source>, emitted: seq<seq<Message>>, est: Message -> nat) returns (refs: seq<Ref>, total: nat)
    requires |sources| == |emitted|
    ensures refs == Merged(sources, emitted, |sources|) && total == Cost(refs, est)
  {
    hide Cost, Block;
    refs, total := [], 0;
    EmptyCost(est);
    for i := 0 to |sources|
      invariant refs == Merged(sources, emitted, i) && total == Cost(refs, est)
    {
      if !sources[i].must {
        ghost var before := refs;
        NoBlock(i);
        for j := 0 to |emitted[i]|
          invariant refs == before + Block(i, emitted[i][..j]) && total == Cost(refs, est)
        {
          var r := Ref(i, emitted[i][j]);
          BlockNext(i, emitted[i], j);
          CostNext(refs, r, est);
          assert before + Block(i, emitted[i][..j + 1]) == refs + [r];
          refs, total := refs + [r], total + est(r.msg);
        }
        assert emitted[i][..|emitted[i]|] == emitted[i];
      }
    }
  }

  ghost predicate Distributed(refs: seq<Ref>, kept: seq<seq<Message>>, tokens: seq<nat>, est: Message -> nat, n: nat) {
    && |kept| == |tokens| == n
    && forall s :: 0 <= s < n ==> kept[s] == Of(refs, s) && tokens[s] == Sum(kept[s], est)
  }

  lemma DistributeOne(refs: seq<Ref>, r: Ref, kept: seq<seq<Message>>, tokens: seq<nat>, est: Message -> nat, n: nat)
    requires Distributed(refs, kept, tokens, est, n) && r.slot < n
    ensures Distributed(refs + [r], kept[r.slot := kept[r.slot] + [r.msg]], tokens[r.slot := tokens[r.slot] + est(r.msg)], est, n)
  {
    hide Of, Sum;
    forall s: nat | s < n
      ensures kept[r.slot := kept[r.slot] + [r.msg]][s] == Of(refs + [r], s)
      ensures tokens[r.slot := tokens[r.slot] + est(r.msg)][s] == Sum(kept[r.slot := kept[r.slot] + [r.msg]][s], est)
    {
      OfAdd(refs, r, s, est);
    }
  }

  lemma DistributeNone(est: Message -> nat, n: nat)
    ensures Distributed([], seq(n, i => []), seq(n, i => 0), est, n)
  {
  }

  /** Hands the kept messages back to their slots. */
  method Distribute(refs: seq<Ref>, n: nat, est: Message -> nat) returns (kept: seq<seq<Message>>, tokens: seq<nat>)
    requires forall i :: 0 <= i < |refs| ==> refs[i].slot < n
    ensures Distributed(refs, kept, tokens, est, n)
  {
    hide Of, Sum, Distributed;
    kept, tokens := seq(n, i => []), seq(n, i => 0);
    DistributeNone(est, n);
    for i := 0 to |refs|
      invariant |kept| == |tokens| == n && Distributed(refs[..i], kept, tokens, est, n)
    {
      var r := refs[i];
      DistributeOne(refs[..i], r, kept, tokens, est, n);
      assert refs[..i + 1] == refs[..i] + [r];
      kept, tokens := kept[r.slot := kept[r.slot] + [r.msg]], tokens[r.slot := tokens[r.slot] + est(r.msg)];
    }
    assert refs[..|refs|] == refs;
  }

  lemma MergedBelow(sources: seq<Source>, raw: seq<seq<Message>>, d: nat)
    requires |raw| == |sources| && d <= |Merged(sources, raw, |sources|)|
    ensures forall i :: 0 <= i < |Merged(sources, raw, |sources|)[d..]| ==> Merged(sources, raw, |sources|)[d..][i].slot < |sources|
  {
    MergedSlots(sources, raw, |sources|);
  }

  lemma Uncut(sources: seq<Source>, raw: seq<seq<Message>>, i: nat)
    requires i < |sources| == |raw|
    ensures TrimmedSlot(sources, raw, raw, 0, i)
  {
    hide Of, Merged;
    var m := Merged(sources, raw, |sources|);
    assert m[0..] == m;
    OfMerged(sources, raw, |sources|, i);
  }

  lemma CutTail(sources: seq<Source>, raw: seq<seq<Message>>, d: nat, i: nat, kept: seq<Message>)
    requires i < |sources| == |raw| && d <= |Merged(sources, raw, |sources|)| && !sources[i].must
    requires kept == Of(Merged(sources, raw, |sources|)[d..], i)
    ensures |kept| <= |raw[i]| && (|kept| == |raw[i]| ==> kept == raw[i])
  {
    hide Of, Merged;
    KeptIsTail(sources, raw, raw[i := kept], d, i);
  }

  /** The least number of messages to drop from the head. */
  method FindCut(refs: seq<Ref>, total0: nat, available: int, est: Message -> nat) returns (drop: nat)
    requires total0 == Cost(refs, est)
    ensures ShortestCut(refs, est, available, drop)
  {
    var total := total0;
    drop := 0;
    assert refs[0..] == refs;
    while drop < |refs| && total > available
      invariant drop <= |refs| && total == Cost(refs[drop..], est)
      invariant forall j :: 0 <= j < drop ==> Cost(refs[j..], est) > available
    {
      assert refs[drop..][1..] == refs[drop + 1..];
      total := total - est(refs[drop].msg);
      drop := drop + 1;
    }
  }

  /** What one slot is left with after the cut, and its report. */
  ghost predicate SlotOk(sources: seq<Source>, raw: seq<seq<Message>>, d: nat, i: nat, before: Report, kept: seq<Message>, after: Report, est: Message -> nat)
    requires i < |sources| == |raw| && d <= |Merged(sources, raw, |sources|)|
  {
    && TrimmedSlot(sources, raw, raw[i := kept], d, i)
    && TrimmedReport(before, after, raw[i], kept, est)
  }

  method TrimSlot(sources: seq<Source>, raw: seq<seq<Message>>, ghost d: nat, i: nat, before: Report, left: seq<Message>, tokens: nat, est: Message -> nat)
    returns (kept: seq<Message>, after: Report)
    requires i < |sources| == |raw| && d <= |Merged(sources, raw, |sources|)|
    requires left == Of(Merged(sources, raw, |sources|)[d..], i) && tokens == Sum(left, est)
    ensures SlotOk(sources, raw, d, i, before, kept, after, est)
  {
    hide Of, Sum, Merged;
    kept, after := raw[i], before;
    if !sources[i].must {
      CutTail(sources, raw, d, i, left);
      var droppedN := |raw[i]| - |left|;
      if droppedN > 0 {
        kept := left;
        after := Report(if before.status.Errored? then Errored else Truncated, |left|, tokens, before.droppedN + droppedN);
      }
    }
  }

  ghost predicate AllSlotsOk(sources: seq<Source>, raw: seq<seq<Message>>, d: nat, before: seq<Report>, emitted: seq<seq<Message>>, after: seq<Report>,
                             est: Message -> nat, n: nat)
    requires |sources| == |raw| == |before| && d <= |Merged(sources, raw, |sources|)|
  {
    && |emitted| == |after| == |sources| && n <= |sources|
    && (forall i :: 0 <= i < n ==> SlotOk(sources, raw, d, i, before[i], emitted[i], after[i], est))
    && (forall i :: n <= i < |sources| ==> emitted[i] == raw[i] && after[i] == before[i])
  }

  lemma SlotsAreTrimmed(sources: seq<Source>, raw: seq<seq<Message>>, d: nat, before: seq<Report>, emitted: seq<seq<Message>>, after: seq<Report>, est: Message -> nat)
    requires |sources| == |raw| == |before| && d <= |Merged(sources, raw, |sources|)|
    requires AllSlotsOk(sources, raw, d, before, emitted, after, est, |sources|)
    ensures forall i :: 0 <= i < |sources| ==> TrimmedSlot(sources, raw, emitted, d, i)
    ensures forall i :: 0 <= i < |sources| ==> TrimmedReport(before[i], after[i], raw[i], emitted[i], est)
  {
    hide Of, Sum, Merged;
    forall i | 0 <= i < |sources|
      ensures TrimmedSlot(sources, raw, emitted, d, i) && TrimmedReport(before[i], after[i], raw[i], emitted[i], est)
    {
      assert SlotOk(sources, raw, d, i, before[i], emitted[i], after[i], est);
    }
  }

  /** Drops the shortest head of the merged optional messages that makes the rest fit; each slot keeps its own tail and
      its report says so. */
  method TrimOptionalToHistory(sources: seq<Source>, raw: seq<seq<Message>>, reports0: seq<Report>, available: int, est: Message -> nat)
    returns (emitted: seq<seq<Message>>, reports: seq<Report>, ghost d: nat)
    requires |sources| == |raw| == |reports0|
    ensures |emitted| == |reports| == |sources|
    ensures ShortestCut(Merged(sources, raw, |sources|), est, available, d)
    ensures forall i :: 0 <= i < |sources| ==> TrimmedSlot(sources, raw, emitted, d, i)
    ensures forall i :: 0 <= i < |sources| ==> TrimmedReport(reports0[i], reports[i], raw[i], emitted[i], est)
  {
    hide Of, Sum, Merged, SlotOk, TrimmedSlot, TrimmedReport;
    var refs, total := Gather(sources, raw, est);
    var drop := FindCut(refs, total, available, est);
    d := drop;
    emitted, reports := raw, reports0;
    if drop == 0 {
      NothingCut(sources, raw, reports0, est);
      return;
    }
    MergedBelow(sources, raw, drop);
    var kept, tokens := Distribute(refs[drop..], |sources|, est);
    for i := 0 to |sources|
      invariant AllSlotsOk(sources, raw, drop, reports0, emitted, reports, est, i)
    {
      var left, rep := TrimSlot(sources, raw, drop, i, reports[i], kept[i], tokens[i], est);
      emitted, reports := emitted[i := left], reports[i := rep];
    }
    SlotsAreTrimmed(sources, raw, drop, reports0, emitted, reports, est);
  }

  lemma NothingCut(sources: seq<Source>, raw: seq<seq<Message>>, reports: seq<Report>, est: Message -> nat)
    requires |sources| == |raw| == |reports|
    ensures forall i :: 0 <= i < |sources| ==> TrimmedSlot(sources, raw, raw, 0, i)
    ensures forall i :: 0 <= i < |sources| ==> TrimmedReport(reports[i], reports[i], raw[i], raw[i], est)
  {
    hide Of, Sum, Merged, TrimmedSlot;
    forall i | 0 <= i < |sources| ensures TrimmedSlot(sources, raw, raw, 0, i) {
      Uncut(sources, raw, i);
    }
  }

  // ---- the build

  predicate ValidBudget(b: Budget) {
    b.window >= 0 && b.reservedOutput >= 0 && b.reservedTools >= 0 && b.reservedSystem >= 0
  }

  function Max(a: int, b: int): int {
    if a < b then b else a
  }

  /** What a must-source delivers; it is asked without a quota. */
  function MustFetch(s: Source, est: Message -> nat): Fetch {
    Normal(s.fetch(0), est)
  }

  /** Tokens the first n must-sources report. */
  function MustTokens(sources: seq<Source>, est: Message -> nat, n: nat): nat
    requires n <= |sources|
  {
    if n == 0 then 0
    else
      MustTokens(sources, est, n - 1)
      + if sources[n - 1].must && MustFetch(sources[n - 1], est).Got? then MustFetch(sources[n - 1], est).report.tokens else 0
  }

  /** Tokens of the last system prompt among the first n sources. */
  function SystemTokens(sources: seq<Source>, est: Message -> nat, n: nat): nat
    requires n <= |sources|
  {
    if n == 0 then 0
    else if sources[n - 1].must && sources[n - 1].system && MustFetch(sources[n - 1], est).Got?
    then MustFetch(sources[n - 1], est).report.tokens
    else SystemTokens(sources, est, n - 1)
  }

  lemma {:induction false} SystemWithin(sources: seq<Source>, est: Message -> nat, n: nat)
    requires n <= |sources|
    ensures SystemTokens(sources, est, n) <= MustTokens(sources, est, n)
  {
    if n > 0 {
      SystemWithin(sources, est, n - 1);
    }
  }

  /** What is charged before any history: the system prompt or its reserve, the other must-sources, tools and output. */
  function Fixed(sources: seq<Source>, b: Budget, est: Message -> nat): int {
    var system := SystemTokens(sources, est, |sources|);
    Max(system, b.reservedSystem) + b.reservedTools + b.reservedOutput + Max(MustTokens(sources, est, |sources|) - system, 0)
  }

  // The same charge, counted out source by source.

  /** What s is charged as a must-source: the tokens it reports, or those of its messages if it reports none. */
  ghost predicate Counts(s: Source, est: Message -> nat, n: nat) {
    s.fetch(0).Got? && n == if s.fetch(0).report.tokens != 0 then s.fetch(0).report.tokens else Sum(s.fetch(0).messages, est)
  }

  /** counts holds what every must-source is charged, and last is the last system prompt among them. */
  ghost predicate Tallied(sources: seq<Source>, est: Message -> nat, counts: seq<nat>, last: Option<nat>) {
    && |counts| == |sources|
    && (forall i :: 0 <= i < |sources| ==> if sources[i].must then Counts(sources[i], est, counts[i]) else counts[i] == 0)
    && match last
       case None => forall i :: 0 <= i < |sources| ==> !(sources[i].must && sources[i].system)
       case Some(l) => l < |sources| && sources[l].must && sources[l].system
                       && forall i :: l < i < |sources| ==> !(sources[i].must && sources[i].system)
  }

  ghost function Total(counts: seq<nat>): nat {
    if counts == [] then 0 else Total(counts[..|counts| - 1]) + counts[|counts| - 1]
  }

  /** Tools, output, the system prompt or its reserve, whichever is more, and every other must-source once. */
  ghost function Charge(b: Budget, counts: seq<nat>, last: Option<nat>): int
    requires last.Some? ==> last.value < |counts|
  {
    var system := if last.Some? then counts[last.value] else 0;
    b.reservedTools + b.reservedOutput + (if system > b.reservedSystem then system else b.reservedSystem) + Total(counts) - system
  }

  lemma CountsIs(s: Source, est: Message -> nat, n: nat)
    ensures Counts(s, est, n) <==> MustFetch(s, est).Got? && MustFetch(s, est).report.tokens == n
  {
    hide Sum;
  }

  lemma {:induction false} TalliedTokens(sources: seq<Source>, est: Message -> nat, counts: seq<nat>, last: Option<nat>, n: nat)
    requires Tallied(sources, est, counts, last) && n <= |sources|
    ensures MustTokens(sources, est, n) == Total(counts[..n])
    ensures last.Some? && last.value < n ==> SystemTokens(sources, est, n) == counts[last.value]
    ensures last.None? ==> SystemTokens(sources, est, n) == 0
  {
    hide Counts, MustFetch;
    if n > 0 {
      TalliedTokens(sources, est, counts, last, n - 1);
      assert counts[..n][..n - 1] == counts[..n - 1];
      if sources[n - 1].must {
        CountsIs(sources[n - 1], est, counts[n - 1]);
      }
    }
  }

  /** What is charged is what the count says. */
  lemma ChargeIsFixed(sources: seq<Source>, b: Budget, est: Message -> nat, counts: seq<nat>, last: Option<nat>)
    requires Tallied(sources, est, counts, last) && ValidBudget(b)
    ensures Fixed(sources, b, est) == Charge(b, counts, last)
  {
    hide Counts, Total, MustTokens, SystemTokens;
    TalliedTokens(sources, est, counts, last, |sources|);
    assert counts[..|sources|] == counts;
    SystemWithin(sources, est, |sources|);
  }

  /** If the must-sources answer there is such a count. */
  lemma Tally(sources: seq<Source>, est: Message -> nat) returns (counts: seq<nat>, last: Option<nat>)
    requires AllMustAnswer(sources, est, |sources|)
    ensures Tallied(sources, est, counts, last)
  {
    hide MustFetch, Counts;
    counts := seq(|sources|, i requires 0 <= i < |sources| =>
                    if sources[i].must && MustFetch(sources[i], est).Got? then MustFetch(sources[i], est).report.tokens else 0);
    forall i | 0 <= i < |sources| && sources[i].must ensures Counts(sources[i], est, counts[i]) {
      CountsIs(sources[i], est, counts[i]);
    }
    last := None;
    for i := 0 to |sources|
      invariant last.None? ==> forall k :: 0 <= k < i ==> !(sources[k].must && sources[k].system)
      invariant last.Some? ==> last.value < i && sources[last.value].must && sources[last.value].system
                               && forall k :: last.value < k < i ==> !(sources[k].must && sources[k].system)
    {
      if sources[i].must && sources[i].system {
        last := Some(i);
      }
    }
  }

  /** A must-source that leaves the count to the builder, or at least does not report fewer tokens than it delivers. */
  ghost predicate Honest(s: Source, est: Message -> nat) {
    s.must && s.fetch(0).Got? ==> s.fetch(0).report.tokens == 0 || s.fetch(0).report.tokens >= Sum(s.fetch(0).messages, est)
  }

  /** The messages of a slot before trimming. */
  ghost predicate Fetched(s: Source, quota: int, est: Message -> nat, raw: seq<Message>, rep: Report) {
    var f := if s.must then MustFetch(s, est) else Normal(s.fetch(quota), est);
    rep == f.report && raw == if f.Got? then f.messages else []
  }

  lemma {:induction false} HonestMust(sources: seq<Source>, raw: seq<seq<Message>>, reports: seq<Report>, est: Message -> nat, quota: int, n: nat)
    requires n <= |sources| == |raw| == |reports|
    requires forall i :: 0 <= i < |sources| ==> Honest(sources[i], est) && Fetched(sources[i], quota, est, raw[i], reports[i])
    requires forall i :: 0 <= i < |sources| && sources[i].must ==> MustFetch(sources[i], est).Got?
    ensures SlotTokens(sources, raw, est, true, n) <= MustTokens(sources, est, n)
  {
    hide Sum;
    if n > 0 {
      HonestMust(sources, raw, reports, est, quota, n - 1);
      assert Honest(sources[n - 1], est) && Fetched(sources[n - 1], quota, est, raw[n - 1], reports[n - 1]);
    }
  }

  function DroppedSum(reports: seq<Report>): nat {
    if reports == [] then 0 else DroppedSum(reports[..|reports| - 1]) + reports[|reports| - 1].droppedN
  }

  /** What a successful build went through: fetched slots, the cut, and the slots and reports after it. */
  ghost predicate BuildOk(sources: seq<Source>, b: Budget, est: Message -> nat, raw: seq<seq<Message>>, before: seq<Report>, d: nat,
                          emitted: seq<seq<Message>>, built: Built)
  {
    && |raw| == |before| == |emitted| == |built.reports| == |sources|
    && (forall i :: 0 <= i < |sources| && sources[i].must ==> MustFetch(sources[i], est).Got?)
    && (forall i :: 0 <= i < |sources| ==> Fetched(sources[i], if b.window == 0 then 0 else built.available, est, raw[i], before[i]))
    && built.messages == Concat(emitted) && built.outputTokens == Sum(built.messages, est) && built.dropped == DroppedSum(built.reports)
    && (if b.window == 0 then emitted == raw && built.reports == before
        else
          && built.available == b.window - Fixed(sources, b, est) >= 0
          && ShortestCut(Merged(sources, raw, |sources|), est, built.available, d)
          && (forall i :: 0 <= i < |sources| ==> TrimmedSlot(sources, raw, emitted, d, i))
          && (forall i :: 0 <= i < |sources| ==> TrimmedReport(before[i], built.reports[i], raw[i], emitted[i], est)))
  }

  /** With a bounded window and honest must-sources, a build leaves room for the reserved tools and output. */
  lemma BuildFits(sources: seq<Source>, b: Budget, est: Message -> nat, raw: seq<seq<Message>>, before: seq<Report>, d: nat,
                  emitted: seq<seq<Message>>, built: Built)
    requires BuildOk(sources, b, est, raw, before, d, emitted, built) && b.window > 0 && ValidBudget(b)
    requires forall i :: 0 <= i < |sources| ==> Honest(sources[i], est)
    ensures built.outputTokens <= b.window - b.reservedTools - b.reservedOutput
  {
    hide Of, Sum, Merged, Cost, Honest, Fetched, TrimmedSlot, TrimmedReport, MustTokens, SystemTokens, SlotTokens, Concat, MustFetch;
    TrimmedCost(sources, raw, emitted, est, d);
    HonestMust(sources, raw, before, est, built.available, |sources|);
    ConcatTokens(sources, emitted, est, |sources|);
    assert emitted[..|sources|] == emitted;
    SystemWithin(sources, est, |sources|);
    if d == |Merged(sources, raw, |sources|)| {
      NoCost(Merged(sources, raw, |sources|)[d..], est);
    }
  }

  lemma NoCost(refs: seq<Ref>, est: Message -> nat)
    requires refs == []
    ensures Cost(refs, est) == 0
  {
  }

  ghost predicate AllMustAnswer(sources: seq<Source>, est: Message -> nat, n: nat)
    requires n <= |sources|
  {
    forall i :: 0 <= i < n && sources[i].must ==> MustFetch(sources[i], est).Got?
  }

  /** i is the first of the sources that must be included whose fetch fails. */
  ghost predicate FirstFails(sources: seq<Source>, i: nat)
    requires i < |sources|
  {
    && sources[i].must && sources[i].fetch(0).Error?
    && forall j :: 0 <= j < i && sources[j].must ==> sources[j].fetch(0).Got?
  }

  /** Slots below n of one kind are fetched, the rest of that kind untouched. */
  ghost predicate FetchedTo(sources: seq<Source>, quota: int, est: Message -> nat, raw: seq<seq<Message>>, reports: seq<Report>, must: bool, n: nat) {
    && |raw| == |reports| == |sources|
    && forall i :: 0 <= i < |sources| && i < n && sources[i].must == must ==> Fetched(sources[i], quota, est, raw[i], reports[i])
  }

  lemma FetchOne(sources: seq<Source>, quota: int, est: Message -> nat, raw: seq<seq<Message>>, reports: seq<Report>, must: bool, n: nat,
                 msgs: seq<Message>, rep: Report)
    requires FetchedTo(sources, quota, est, raw, reports, must, n) && n < |sources|
    requires sources[n].must == must ==> Fetched(sources[n], quota, est, msgs, rep)
    ensures FetchedTo(sources, quota, est, raw[n := msgs], reports[n := rep], must, n + 1)
  {
    hide Fetched;
  }

  lemma FetchOther(sources: seq<Source>, quota: int, est: Message -> nat, raw: seq<seq<Message>>, reports: seq<Report>, must: bool, k: nat, n: nat,
                   msgs: seq<Message>, rep: Report)
    requires FetchedTo(sources, quota, est, raw, reports, must, k) && n < |sources| && sources[n].must != must
    ensures FetchedTo(sources, quota, est, raw[n := msgs], reports[n := rep], must, k)
  {
    hide Fetched;
  }

  /** Asks the must-sources, in order; the first that fails ends the build. */
  method FetchMust(sources: seq<Source>, est: Message -> nat)
    returns (failed: Option<nat>, raw: seq<seq<Message>>, reports: seq<Report>, mustTokens: nat, systemTokens: nat)
    ensures failed.None? <==> AllMustAnswer(sources, est, |sources|)
    ensures failed.Some? ==> failed.value < |sources| && FirstFails(sources, failed.value)
    ensures failed.None? ==> forall i :: 0 <= i < |sources| && sources[i].must ==> sources[i].fetch(0).Got?
    ensures failed.None? ==> (forall quota :: FetchedTo(sources, quota, est, raw, reports, true, |sources|))
    ensures failed.None? ==> mustTokens == MustTokens(sources, est, |sources|) && systemTokens == SystemTokens(sources, est, |sources|)
  {
    hide Sum;
    raw, reports := seq(|sources|, i => []), seq(|sources|, i => Report(Unset, 0, 0, 0));
    mustTokens, systemTokens := 0, 0;
    for i := 0 to |sources|
      invariant AllMustAnswer(sources, est, i)
      invariant |raw| == |reports| == |sources|
      invariant forall k :: 0 <= k < i && sources[k].must ==> raw[k] == MustFetch(sources[k], est).messages && reports[k] == MustFetch(sources[k], est).report
      invariant mustTokens == MustTokens(sources, est, i) && systemTokens == SystemTokens(sources, est, i)
    {
      if sources[i].must {
        var f := MustFetch(sources[i], est);
        if f.Error? { return Some(i), raw, reports, mustTokens, systemTokens; }
        raw, reports := raw[i := f.messages], reports[i := f.report];
        mustTokens := mustTokens + f.report.tokens;
        if sources[i].system {
          systemTokens := f.report.tokens;
        }
      }
    }
    failed := None;
  }

  /** Asks the optional sources; one that fails is recorded and contributes nothing. */
  method FetchOptional(sources: seq<Source>, quota: int, est: Message -> nat, raw0: seq<seq<Message>>, reports0: seq<Report>)
    returns (raw: seq<seq<Message>>, reports: seq<Report>)
    requires FetchedTo(sources, quota, est, raw0, reports0, true, |sources|)
    ensures FetchedTo(sources, quota, est, raw, reports, true, |sources|)
    ensures FetchedTo(sources, quota, est, raw, reports, false, |sources|)
  {
    hide Sum, Normal, MustFetch;
    raw, reports := raw0, reports0;
    for i := 0 to |sources|
      invariant FetchedTo(sources, quota, est, raw, reports, true, |sources|)
      invariant FetchedTo(sources, quota, est, raw, reports, false, i)
    {
      if !sources[i].must {
        var f := Normal(sources[i].fetch(quota), est);
        var msgs := if f.Got? then f.messages else [];
        FetchOne(sources, quota, est, raw, reports, false, i, msgs, f.report);
        FetchOther(sources, quota, est, raw, reports, true, |sources|, i, msgs, f.report);
        raw, reports := raw[i := msgs], reports[i := f.report];
      }
    }
  }

  /** Builds a prompt: charges the fixed content, fills what is left with optional content, trims its head. */
  method Build(sources: seq<Source>, b: Budget, est: Message -> nat)
    returns (r: Result<Built, BuildError>, ghost raw: seq<seq<Message>>, ghost before: seq<Report>, ghost d: nat, ghost emitted: seq<seq<Message>>)
    ensures r.Ok? <==> ValidBudget(b) && AllMustAnswer(sources, est, |sources|) && (b.window == 0 || Fixed(sources, b, est) <= b.window)
    ensures r.Ok? ==> BuildOk(sources, b, est, raw, before, d, emitted, r.value)
    ensures r.Ok? ==> exists counts, last :: Tallied(sources, est, counts, last)
    ensures forall counts, last :: Tallied(sources, est, counts, last) ==> Charged(b, Charge(b, counts, last), r)
    ensures r.Ok? && b.window > 0 && (forall i :: 0 <= i < |sources| ==> Honest(sources[i], est)) ==>
              Sum(r.value.messages, est) <= b.window - b.reservedTools - b.reservedOutput
    ensures r.Err? ==> r.error == if !ValidBudget(b) then InvalidBudget
                                  else if r.error.SourceFailed? then r.error else FixedOverflow(Fixed(sources, b, est), b.window)
    ensures r == Err(InvalidBudget) <==> b.window < 0 || b.reservedOutput < 0 || b.reservedTools < 0 || b.reservedSystem < 0
    ensures r.Err? && r.error.SourceFailed? ==> r.error.index < |sources| && FirstFails(sources, r.error.index)
    ensures r.Err? && r.error.FixedOverflow? ==> forall i :: 0 <= i < |sources| && sources[i].must ==> sources[i].fetch(0).Got?
  {
    hide Of, Sum, Merged, Cost, Fetched, TrimmedSlot, TrimmedReport, MustTokens, SystemTokens, Concat, MustFetch, ShortestCut, Honest, Normal, DroppedSum,
         Tallied, Charge, Charged;
    raw, before, d, emitted := [], [], 0, [];
    if b.window < 0 || b.reservedOutput < 0 || b.reservedTools < 0 || b.reservedSystem < 0 {
      r := Err(InvalidBudget);
      WellCharged(sources, b, est, r);
      return;
    }
    var failed, slots, reports, mustTokens, systemTokens := FetchMust(sources, est);
    if failed.Some? {
      r := Err(SourceFailed(failed.value));
      WellCharged(sources, b, est, r);
      return;
    }
    SystemWithin(sources, est, |sources|);
    var reservedSystem := Max(systemTokens, b.reservedSystem);
    var fixed := reservedSystem + b.reservedTools + b.reservedOutput + Max(mustTokens - systemTokens, 0);
    if b.window != 0 && fixed > b.window {
      r := Err(FixedOverflow(fixed, b.window));
      WellCharged(sources, b, est, r);
      return;
    }
    var available := if b.window != 0 then Max(b.window - fixed, 0) else 0;
    var quota := if b.window == 0 then 0 else available;
    slots, reports := FetchOptional(sources, quota, est, slots, reports);
    raw, before := slots, reports;
    var trimmed, after := slots, reports;
    if b.window != 0 {
      trimmed, after, d := TrimOptionalToHistory(sources, slots, reports, available, est);
    }
    emitted := trimmed;
    var out, dropped := [], 0;
    NothingYet();
    for i := 0 to |sources|
      invariant out == Concat(trimmed[..i]) && dropped == DroppedSum(after[..i])
    {
      OneMoreSlot(trimmed, after, i);
      out := out + trimmed[i];
      dropped := dropped + after[i].droppedN;
    }
    assert trimmed[..|sources|] == trimmed && after[..|sources|] == after;
    AllFetched(sources, quota, est, slots, reports);
    r := Ok(Built(out, reservedSystem, available, Sum(out, est), dropped, after));
    WellCharged(sources, b, est, r);
    if b.window > 0 && forall i :: 0 <= i < |sources| ==> Honest(sources[i], est) {
      BuildFits(sources, b, est, raw, before, d, emitted, r.value);
    }
  }

  /** How a build ends that is charged so much before any history: it succeeds exactly if that fits, and leaves the rest. */
  ghost predicate Charged(b: Budget, charge: int, r: Result<Built, BuildError>) {
    && (r.Ok? <==> ValidBudget(b) && (b.window == 0 || charge <= b.window))
    && (r.Ok? && b.window > 0 ==> r.value.available == b.window - charge)
    && (r.Err? ==> r.error == if !ValidBudget(b) then InvalidBudget else FixedOverflow(charge, b.window))
  }

  /** While the system reserve does not exceed the prompt, that is tools, output and all must-sources once. */
  lemma PlainCharge(b: Budget, counts: seq<nat>, last: Option<nat>)
    requires last.Some? ==> last.value < |counts|
    requires if last.Some? then b.reservedSystem <= counts[last.value] else b.reservedSystem <= 0
    ensures b.reservedSystem >= 0 ==> Charge(b, counts, last) == b.reservedTools + b.reservedOutput + Total(counts)
  {
  }

  lemma WellCharged(sources: seq<Source>, b: Budget, est: Message -> nat, r: Result<Built, BuildError>)
    requires r.Ok? <==> ValidBudget(b) && AllMustAnswer(sources, est, |sources|) && (b.window == 0 || Fixed(sources, b, est) <= b.window)
    requires r.Ok? && b.window > 0 ==> r.value.available == b.window - Fixed(sources, b, est)
    requires r.Err? ==> r.error == if !ValidBudget(b) then InvalidBudget
                                   else if r.error.SourceFailed? then r.error else FixedOverflow(Fixed(sources, b, est), b.window)
    requires r.Err? && r.error.SourceFailed? ==> !AllMustAnswer(sources, est, |sources|)
    ensures r.Ok? ==> exists counts, last :: Tallied(sources, est, counts, last)
    ensures forall counts, last :: Tallied(sources, est, counts, last) ==> Charged(b, Charge(b, counts, last), r)
  {
    hide Fixed, Charge, Counts, MustFetch;
    if r.Ok? {
      var counts, last := Tally(sources, est);
    }
    forall counts, last | Tallied(sources, est, counts, last) ensures Charged(b, Charge(b, counts, last), r) {
      TalliedAnswers(sources, est, counts, last);
      if ValidBudget(b) {
        ChargeIsFixed(sources, b, est, counts, last);
      }
    }
  }

  lemma TalliedAnswers(sources: seq<Source>, est: Message -> nat, counts: seq<nat>, last: Option<nat>)
    requires Tallied(sources, est, counts, last)
    ensures AllMustAnswer(sources, est, |sources|)
    ensures last.Some? ==> last.value < |counts|
  {
    hide MustFetch, Counts;
    forall i | 0 <= i < |sources| && sources[i].must ensures MustFetch(sources[i], est).Got? {
      CountsIs(sources[i], est, counts[i]);
    }
  }

  lemma NothingYet()
    ensures Concat([]) == [] && DroppedSum([]) == 0
  {
  }

  lemma OneMoreSlot(emitted: seq<seq<Message>>, reports: seq<Report>, i: nat)
    requires i < |emitted| == |reports|
    ensures Concat(emitted[..i + 1]) == Concat(emitted[..i]) + emitted[i]
    ensures DroppedSum(reports[..i + 1]) == DroppedSum(reports[..i]) + reports[i].droppedN
  {
    assert emitted[..i + 1][..i] == emitted[..i] && reports[..i + 1][..i] == reports[..i];
  }

  lemma AllFetched(sources: seq<Source>, quota: int, est: Message -> nat, raw: seq<seq<Message>>, reports: seq<Report>)
    requires FetchedTo(sources, quota, est, raw, reports, true, |sources|) && FetchedTo(sources, quota, est, raw, reports, false, |sources|)
    ensures |raw| == |reports| == |sources| && forall i :: 0 <= i < |sources| ==> Fetched(sources[i], quota, est, raw[i], reports[i])
  {
    hide Fetched;
  }
}
