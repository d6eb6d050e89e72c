/** The model-and-tools loop, suspended before a flagged batch and resumed from it, as one logical run. The model, the
    tools, the policy and the human answer anything. */
module React {
  import opened Graph
  import opened Wrappers
  import Interrupt
  import Policy

  datatype Call = Call(id: string, name: string)

  datatype Message = Said(text: string) | Assistant(text: string, calls: seq<Call>) | ToolResult(id: string, text: string, isError: bool)

  datatype Result = Result(id: string, text: string, isError: bool)

  datatype Params = Params(maxIter: int, budget: int)

  /** What is persisted when a batch suspends. */
  datatype Frozen = Frozen(messages: seq<Message>, calls: seq<Call>, pending: seq<string>, params: Params, iteration: int, consumed: int)

  datatype StopReason = Complete | BudgetExhausted | MaxIterations

  datatype End = Stopped(reason: StopReason) | Suspended(frozen: Frozen) | Failed

  datatype Checkpoint = Checkpoint(messages: seq<Message>, final: bool)

  /** What the model answers: a message with tool calls, whether it stops for them, and the tokens charged. */
  datatype Reply = Reply(text: string, calls: seq<Call>, wants: bool, tokens: nat)

  /** What the policy says of a batch: the ids it flags, and, if it also assesses, its assessments. stored: the store
      takes the record. */
  datatype Verdict = Verdict(pending: seq<string>, snap: Option<seq<Policy.Assessment>>, stored: bool)

  /** The world a loop runs in, iteration by iteration: the model answers a list or fails, the policy judges the batch that
      a list ends with, and the tool behind the k-th call of a batch answers or breaks the batch off. */
  datatype Env = Env(model: (int, seq<Message>) -> Option<Reply>, policy: (int, seq<Message>) -> Verdict,
                     tool: (int, nat, Call) -> Option<(string, bool)>)

  /** One answer of the model: the iteration it belongs to and the tokens it was charged. */
  datatype Turn = Turn(iter: int, tokens: nat)

  function CallIds(calls: seq<Call>): seq<string> {
    seq(|calls|, i requires 0 <= i < |calls| => calls[i].id)
  }

  function Messages(results: seq<Result>): seq<Message> {
    seq(|results|, i requires 0 <= i < |results| => ToolResult(results[i].id, results[i].text, results[i].isError))
  }

  // ---- closed message lists

  /** The messages answer the calls: one result per call, in call order. */
  ghost predicate Answers(calls: seq<Call>, msgs: seq<Message>) {
    |msgs| == |calls| && forall i :: 0 <= i < |calls| ==> msgs[i].ToolResult? && msgs[i].id == calls[i].id
  }

  function CallsOf(m: Message): seq<Call> {
    if m.Assistant? then m.calls else []
  }

  ghost predicate HeadAnswered(msgs: seq<Message>)
    requires msgs != []
  {
    !msgs[0].ToolResult? && |CallsOf(msgs[0])| < |msgs| && Answers(CallsOf(msgs[0]), msgs[1..|CallsOf(msgs[0])| + 1])
  }

  /** Every batch of tool calls is followed by exactly its answers, and no answer stands anywhere else. */
  ghost predicate Closed(msgs: seq<Message>) {
    msgs == [] || (HeadAnswered(msgs) && Closed(msgs[|CallsOf(msgs[0])| + 1..]))
  }

  lemma Unroll(msgs: seq<Message>)
    requires Closed(msgs) && msgs != []
    ensures |CallsOf(msgs[0])| < |msgs| && HeadAnswered(msgs) && !msgs[0].ToolResult?
    ensures Closed(msgs[|CallsOf(msgs[0])| + 1..]) && Answers(CallsOf(msgs[0]), msgs[1..|CallsOf(msgs[0])| + 1])
  {
    hide Answers;
  }

  lemma Roll(msgs: seq<Message>)
    requires msgs != [] && HeadAnswered(msgs) && Closed(msgs[|CallsOf(msgs[0])| + 1..])
    ensures Closed(msgs)
  {
    hide HeadAnswered;
  }

  lemma {:induction false} ClosedJoin(a: seq<Message>, b: seq<Message>)
    requires Closed(a) && Closed(b)
    ensures Closed(a + b)
    decreases |a|
  {
    hide Answers, Closed;
    if a == [] {
      assert a + b == b;
    } else {
      Unroll(a);
      var n := |CallsOf(a[0])|;
      ClosedJoin(a[n + 1..], b);
      assert (a + b)[n + 1..] == a[n + 1..] + b;
      assert (a + b)[1..n + 1] == a[1..n + 1];
      Roll(a + b);
    }
  }

  /** Appending a batch together with its answers keeps a list closed. */
  lemma ClosedBatch(msgs: seq<Message>, text: string, calls: seq<Call>, answers: seq<Message>)
    requires Closed(msgs) && Answers(calls, answers)
    ensures Closed(msgs + [Assistant(text, calls)] + answers)
  {
    hide Answers;
    var tail := [Assistant(text, calls)] + answers;
    AnswersSize(calls, answers);
    assert tail[1..|calls| + 1] == answers && tail[|calls| + 1..] == [];
    assert Closed(tail);
    ClosedJoin(msgs, tail);
    assert msgs + [Assistant(text, calls)] + answers == msgs + tail;
  }

  lemma AnswersSize(calls: seq<Call>, answers: seq<Message>)
    requires Answers(calls, answers)
    ensures |calls| == |answers|
  {
  }

  lemma SliceOfTail<T>(s: seq<T>, n: nat, k: nat, m: nat)
    requires n + k + m <= |s|
    ensures s[n..][k..k + m] == s[n + k..n + k + m]
    ensures n + k + m < |s| ==> s[n..][k + m] == s[n + k + m]
  {
  }

  lemma AnswerIsResult(msgs: seq<Message>, i: nat)
    requires msgs != [] && HeadAnswered(msgs) && 0 < i <= |CallsOf(msgs[0])|
    ensures i < |msgs| && msgs[i].ToolResult? && msgs[i].id == CallsOf(msgs[0])[i - 1].id
  {
    assert msgs[i] == msgs[1..|CallsOf(msgs[0])| + 1][i - 1];
  }

  ghost predicate AnsweredAt(msgs: seq<Message>, i: nat)
    requires i < |msgs|
  {
    var n := |CallsOf(msgs[i])|;
    && i + n < |msgs| && Answers(CallsOf(msgs[i]), msgs[i + 1..i + 1 + n])
    && (i + 1 + n < |msgs| ==> !msgs[i + 1 + n].ToolResult?)
  }

  lemma HeadIsAnswered(msgs: seq<Message>)
    requires Closed(msgs) && msgs != []
    ensures AnsweredAt(msgs, 0)
  {
    hide Answers, HeadAnswered, Closed;
    Unroll(msgs);
    var rest := msgs[|CallsOf(msgs[0])| + 1..];
    if rest != [] {
      Unroll(rest);
    }
  }

  lemma AnsweredLater(msgs: seq<Message>, n: nat, k: nat)
    requires n + k < |msgs| && AnsweredAt(msgs[n..], k)
    ensures AnsweredAt(msgs, n + k)
  {
    hide Answers, CallsOf;
    SliceOfTail(msgs, n, k + 1, |CallsOf(msgs[n + k])|);
  }

  /** In a closed list the answers to a batch stand right behind it, wherever the batch is, and no more follow them. */
  lemma {:induction false} ClosedAnswers(msgs: seq<Message>, i: nat)
    requires Closed(msgs) && i < |msgs| && !msgs[i].ToolResult?
    ensures AnsweredAt(msgs, i)
    decreases |msgs|
  {
    hide Answers, Closed, HeadAnswered, CallsOf, AnsweredAt;
    Unroll(msgs);
    if i == 0 {
      HeadIsAnswered(msgs);
    } else if i <= |CallsOf(msgs[0])| {
      AnswerIsResult(msgs, i);
    } else {
      var n := |CallsOf(msgs[0])| + 1;
      assert msgs[n..][i - n] == msgs[i];
      ClosedAnswers(msgs[n..], i - n);
      AnsweredLater(msgs, n, i - n);
    }
  }

  /** Result i answers the batch at j. */
  ghost predicate Owns(msgs: seq<Message>, j: nat, i: nat) {
    j < i < |msgs| && i <= j + |CallsOf(msgs[j])| && msgs[i].ToolResult? && msgs[i].id == CallsOf(msgs[j])[i - j - 1].id
  }

  /** No result in a closed list stands without its call. */
  lemma {:induction false} ClosedOwns(msgs: seq<Message>, i: nat) returns (j: nat)
    requires Closed(msgs) && i < |msgs| && msgs[i].ToolResult?
    ensures Owns(msgs, j, i)
    decreases |msgs|
  {
    hide Answers, Closed, HeadAnswered;
    Unroll(msgs);
    var n := |CallsOf(msgs[0])|;
    if i <= n {
      j := 0;
      AnswerIsResult(msgs, i);
    } else {
      var rest := msgs[n + 1..];
      assert rest[i - n - 1] == msgs[i];
      var k := ClosedOwns(rest, i - n - 1);
      j := k + n + 1;
      assert rest[k] == msgs[j];
    }
  }

  // ---- accounts of a run

  ghost predicate AllClosed(sent: seq<seq<Message>>) {
    forall i :: 0 <= i < |sent| ==> Closed(sent[i])
  }

  ghost predicate SavedClosed(saved: seq<Checkpoint>) {
    forall i :: 0 <= i < |saved| ==> saved[i].final || Closed(saved[i].messages)
  }

  ghost function TokenSum(turns: seq<Turn>): nat {
    if turns == [] then 0 else TokenSum(turns[..|turns| - 1]) + turns[|turns| - 1].tokens
  }

  /** Turns of distinct, ascending iterations within [lo, hi). */
  ghost predicate TurnsIn(turns: seq<Turn>, lo: int, hi: int) {
    && (forall i, j :: 0 <= i < j < |turns| ==> turns[i].iter < turns[j].iter)
    && (forall i :: 0 <= i < |turns| ==> lo <= turns[i].iter < hi)
  }

  lemma {:induction false} TurnsFit(turns: seq<Turn>, lo: int, hi: int)
    requires TurnsIn(turns, lo, hi) && lo <= hi
    ensures |turns| <= hi - lo
    decreases |turns|
  {
    if turns != [] {
      var last := |turns| - 1;
      TurnsFit(turns[..last], lo, turns[last].iter);
    }
  }

  lemma TokenSumNext(turns: seq<Turn>, t: Turn)
    ensures TokenSum(turns + [t]) == TokenSum(turns) + t.tokens
  {
    assert (turns + [t])[..|turns|] == turns;
  }

  lemma {:induction false} TokenSumJoin(a: seq<Turn>, b: seq<Turn>)
    ensures TokenSum(a + b) == TokenSum(a) + TokenSum(b)
  {
    if b == [] {
      assert a + b == a;
    } else {
      var last := |b| - 1;
      TokenSumJoin(a, b[..last]);
      assert (a + b)[..|a + b| - 1] == a + b[..last];
    }
  }

  /** The last turn began within the budget: all the others together had not used it up. */
  ghost predicate StartedWithin(budget: int, consumed: int, turns: seq<Turn>) {
    budget > 0 && turns != [] ==> consumed < budget + turns[|turns| - 1].tokens
  }

  class BudgetTracker {
    const budget: int
    var consumed: int

    constructor (budget: int, consumed: int)
      ensures this.budget == budget && this.consumed == consumed
    {
      this.budget, this.consumed := budget, consumed;
    }

    function Exhausted(): (r: bool)
      reads this
    {
      budget > 0 && consumed >= budget
    }

    /** What is left; -1 means no limit. */
    function Remaining(): (r: int)
      reads this
      ensures budget > 0 ==> r >= 0 && (r == 0 <==> Exhausted())
      ensures budget > 0 && !Exhausted() ==> consumed + r == budget
      ensures budget <= 0 ==> r == -1
    {
      if budget <= 0 then -1 else if budget - consumed < 0 then 0 else budget - consumed
    }

    method Add(tokens: nat) returns (exhausted: bool)
      modifies this
      ensures consumed == old(consumed) + tokens
      ensures exhausted == Exhausted()
    {
      consumed := consumed + tokens;
      exhausted := Exhausted();
    }
  }

  // ---- tools

  /** results are what the tools behind the calls answered, each under its call's id. */
  ghost predicate RanTools(env: Env, iter: int, calls: seq<Call>, results: seq<Result>) {
    && |results| == |calls|
    && forall k: nat :: k < |calls| ==>
         results[k].id == calls[k].id && env.tool(iter, k, calls[k]) == Some((results[k].text, results[k].isError))
  }

  ghost predicate SomeToolFails(env: Env, iter: int, calls: seq<Call>) {
    exists k: nat :: k < |calls| && env.tool(iter, k, calls[k]).None?
  }

  /** Runs each call and passes its result on under the call's id, or fails as a whole. */
  method ExecuteToolBatch(env: Env, iter: int, calls: seq<Call>) returns (r: Option<seq<Result>>)
    ensures r.Some? ==> Answers(calls, Messages(r.value)) && RanTools(env, iter, calls, r.value)
    ensures r.None? <==> SomeToolFails(env, iter, calls)
  {
    var results: seq<Result> := [];
    for i := 0 to |calls|
      invariant |results| == i
      invariant forall k: nat :: k < i ==>
                  results[k].id == calls[k].id && env.tool(iter, k, calls[k]) == Some((results[k].text, results[k].isError))
    {
      var answer := env.tool(iter, i, calls[i]);
      if answer.None? { return None; }
      results := results + [Result(calls[i].id, answer.value.0, answer.value.1)];
    }
    r := Some(results);
  }

  ghost predicate FirstDirect(direct: set<string>, calls: seq<Call>, results: seq<Result>, i: int)
    requires |results| == |calls|
  {
    && 0 <= i < |calls| && calls[i].name in direct && !results[i].isError
    && forall j :: 0 <= j < i ==> calls[j].name !in direct || results[j].isError
  }

  /** The first call, in the model's order, that is configured for direct return and succeeded. */
  method ReturnDirectResult(direct: set<string>, calls: seq<Call>, results: seq<Result>) returns (r: Option<Result>)
    requires |results| == |calls|
    ensures r.None? <==> forall i :: 0 <= i < |calls| ==> calls[i].name !in direct || results[i].isError
    ensures r.Some? ==> exists i :: FirstDirect(direct, calls, results, i) && r == Some(results[i])
  {
    if |direct| == 0 { return None; }
    for i := 0 to |calls|
      invariant forall j :: 0 <= j < i ==> calls[j].name !in direct || results[j].isError
    {
      if calls[i].name in direct && !results[i].isError {
        assert FirstDirect(direct, calls, results, i);
        return Some(results[i]);
      }
    }
    r := None;
  }

  // ---- suspending

  /** A batch that can be resumed: distinct named calls, some of them pending. */
  ghost predicate Resumable(f: Frozen) {
    && NoDup(CallIds(f.calls)) && "" !in CallIds(f.calls)
    && f.pending != [] && Policy.PendingSubset(CallIds(f.calls), f.pending)
  }

  /** The messages end with the batch, and were closed before it. */
  ghost predicate OpenAt(f: Frozen) {
    && |f.messages| > 0 && f.messages[|f.messages| - 1].Assistant? && f.messages[|f.messages| - 1].calls == f.calls
    && Closed(f.messages[..|f.messages| - 1])
  }

  method ValidateBatchAddressable(ids: seq<string>) returns (ok: bool)
    ensures ok <==> NoDup(ids) && "" !in ids
  {
    var seen: set<string> := {};
    for i := 0 to |ids|
      invariant seen == Elems(ids[..i]) && NoDup(ids[..i]) && "" !in ids[..i]
    {
      if ids[i] == "" { return false; }
      if ids[i] in seen {
        var k :| 0 <= k < i && ids[k] == ids[i];
        return false;
      }
      seen := seen + {ids[i]};
      assert ids[..i + 1] == ids[..i] + [ids[i]];
    }
    assert ids[..|ids|] == ids;
    ok := true;
  }

  datatype Asked = Proceed | Persisted(frozen: Frozen) | Broken

  ghost predicate Coherent(calls: seq<Call>, v: Verdict) {
    v.snap.Some? ==> Policy.Agrees(CallIds(calls), v.pending, v.snap.value)
  }

  /** The policy lets a batch of distinct calls through: it is coherent and flags nothing. */
  ghost predicate Passes(calls: seq<Call>, v: Verdict) {
    v.pending == [] && (NoDup(CallIds(calls)) ==> Coherent(calls, v))
  }

  /** Asks the policy about a batch; what it flags is persisted before anything of it runs. On a batch of distinct calls
      the handlers may go ahead exactly when the policy is coherent and flags nothing; the run suspends exactly when the
      policy is coherent, flags something, the batch can be resumed, and the store takes the record. */
  method MaybeInterrupt(p: Params, iteration: int, consumed: int, continuation: seq<Message>, calls: seq<Call>, v: Verdict)
    returns (r: Asked)
    ensures r.Proceed? ==> v.pending == [] && Passes(calls, v)
    ensures NoDup(CallIds(calls)) ==> (r.Proceed? <==> Passes(calls, v))
    ensures var f := Frozen(continuation, calls, v.pending, p, iteration, consumed);
            && (r.Persisted? ==> r.frozen == f && Resumable(f))
            && (r.Persisted? <==> Coherent(calls, v) && Resumable(f) && v.stored)
  {
    hide NoDup, Policy.Agrees, Policy.PendingSubset;
    if v.snap.Some? {
      var ok := Policy.ConsistentAssessments(CallIds(calls), v.pending, v.snap.value);
      if !ok { return Broken; }
    }
    if |v.pending| == 0 { return Proceed; }
    var addressable := ValidateBatchAddressable(CallIds(calls));
    if !addressable { return Broken; }
    var subset := Policy.ValidatePendingSubset(CallIds(calls), v.pending);
    if !subset { return Broken; }
    r := if v.stored then Persisted(Frozen(continuation, calls, v.pending, p, iteration, consumed)) else Broken;
  }

  // ---- the loop

  /** What one pass through the loop adds to a run's account. */
  ghost predicate Account(p: Params, lo: int, before: int, after: int, sent: seq<seq<Message>>, saved: seq<Checkpoint>, turns: seq<Turn>) {
    && AllClosed(sent) && SavedClosed(saved)
    && TurnsIn(turns, lo, p.maxIter)
    && after == before + TokenSum(turns)
    && StartedWithin(p.budget, after, turns)
  }

  /** Why the loop ended. */
  ghost predicate EndOk(end: End, p: Params, lo: int, consumed: int, turns: seq<Turn>) {
    match end
    case Failed => true
    case Stopped(Complete) => true
    case Stopped(BudgetExhausted) => p.budget > 0 && consumed >= p.budget
    case Stopped(MaxIterations) => |turns| == if lo <= p.maxIter then p.maxIter - lo else 0
    case Suspended(f) =>
      && Resumable(f) && OpenAt(f) && f.params == p && f.consumed == consumed
      && turns != [] && f.iteration == turns[|turns| - 1].iter
      && !(p.budget > 0 && consumed >= p.budget)
  }

  ghost predicate Consecutive(turns: seq<Turn>, lo: int, hi: int) {
    |turns| == hi - lo && forall i :: 0 <= i < |turns| ==> turns[i].iter == lo + i
  }

  lemma ConsecutiveIn(turns: seq<Turn>, lo: int, iter: int, hi: int)
    requires Consecutive(turns, lo, iter) && iter <= hi
    ensures TurnsIn(turns, lo, hi)
  {
  }

  lemma OneMoreTurn(turns: seq<Turn>, lo: int, iter: int, tokens: nat)
    requires Consecutive(turns, lo, iter)
    ensures Consecutive(turns + [Turn(iter, tokens)], lo, iter + 1)
    ensures TokenSum(turns + [Turn(iter, tokens)]) == TokenSum(turns) + tokens
  {
    TokenSumNext(turns, Turn(iter, tokens));
  }

  lemma SendOne(sent: seq<seq<Message>>, msgs: seq<Message>)
    requires AllClosed(sent) && Closed(msgs)
    ensures AllClosed(sent + [msgs])
  {
    hide Closed;
  }

  lemma SaveOne(saved: seq<Checkpoint>, c: Checkpoint)
    requires SavedClosed(saved) && (c.final || Closed(c.messages))
    ensures SavedClosed(saved + [c])
  {
    hide Closed;
  }

  lemma OpenBatch(messages: seq<Message>, text: string, calls: seq<Call>, pending: seq<string>, p: Params, iter: int, consumed: int)
    requires Closed(messages)
    ensures OpenAt(Frozen(messages + [Assistant(text, calls)], calls, pending, p, iter, consumed))
  {
    hide Closed;
    assert (messages + [Assistant(text, calls)])[..|messages|] == messages;
  }

  // What the model sees: sent[i] is the list of the i-th call, said[i] its answer, and answers[i] the results of the
  // batch that answer asked for.

  /** after is before, then the assistant's message, then each result as a tool message, in order. */
  ghost predicate Extends(before: seq<Message>, said: Message, results: seq<Result>, after: seq<Message>) {
    && |after| == |before| + 1 + |results|
    && after[..|before|] == before && after[|before|] == said
    && forall k :: 0 <= k < |results| ==> after[|before| + 1 + k] == ToolResult(results[k].id, results[k].text, results[k].isError)
  }

  /** Every list sent is the one before it, extended by what came of it. */
  ghost predicate Chained(sent: seq<seq<Message>>, said: seq<Message>, answers: seq<seq<Result>>) {
    && |answers| <= |said| <= |sent| <= |answers| + 1
    && forall i: nat :: i + 1 < |sent| ==> Extends(sent[i], said[i], answers[i], sent[i + 1])
  }

  /** The list as it stands after all that is on record. */
  ghost predicate Current(messages0: seq<Message>, sent: seq<seq<Message>>, said: seq<Message>, answers: seq<seq<Result>>, now: seq<Message>)
    requires |answers| <= |said| <= |sent| <= |answers| + 1
  {
    var last := |sent| - 1;
    if sent == [] then now == messages0
    else if |said| == last then now == sent[last]
    else if |answers| == last then now == sent[last] + [said[last]]
    else Extends(sent[last], said[last], answers[last], now)
  }

  /** The i-th checkpoint one could resume from is the list after the i-th batch. */
  ghost predicate SavedFrom(sent: seq<seq<Message>>, said: seq<Message>, answers: seq<seq<Result>>, saved: seq<Checkpoint>)
    requires |answers| <= |said| <= |sent|
  {
    forall i: nat :: i < |saved| && !saved[i].final ==> i < |answers| && Extends(sent[i], said[i], answers[i], saved[i].messages)
  }

  /** The list with the text of the first direct result as a last message of the assistant. */
  ghost predicate DirectEnd(direct: set<string>, messages0: seq<Message>, sent: seq<seq<Message>>, said: seq<Message>,
                            answers: seq<seq<Result>>, list: seq<Message>)
    requires 0 < |answers| == |said| == |sent|
  {
    var calls, results := CallsOf(said[|said| - 1]), answers[|answers| - 1];
    |results| == |calls|
    && exists now, i :: Current(messages0, sent, said, answers, now) && FirstDirect(direct, calls, results, i)
                        && list == now + [Assistant(results[i].text, [])]
  }

  /** A final checkpoint holds the list as it stands, with the direct result behind it if that ended the run. */
  ghost predicate FinalList(end: End, direct: set<string>, messages0: seq<Message>, sent: seq<seq<Message>>, said: seq<Message>,
                            answers: seq<seq<Result>>, list: seq<Message>)
    requires |answers| <= |said| <= |sent| <= |answers| + 1
  {
    if end == Stopped(Complete) && 0 < |answers| == |said| == |sent| then DirectEnd(direct, messages0, sent, said, answers, list)
    else Current(messages0, sent, said, answers, list)
  }

  /** What a run leaves behind: a stopped one a final checkpoint, a suspended one the list with the batch still open. */
  ghost predicate Leaves(end: End, direct: set<string>, messages0: seq<Message>, sent: seq<seq<Message>>, said: seq<Message>,
                         answers: seq<seq<Result>>, saved: seq<Checkpoint>)
    requires |answers| <= |said| <= |sent| <= |answers| + 1
  {
    && (forall i :: 0 <= i < |saved| && saved[i].final ==> end.Stopped? && i == |saved| - 1)
    && (end == Stopped(Complete) ==> said != [])
    && (end.Stopped? ==> saved != [] && saved[|saved| - 1].final
                         && FinalList(end, direct, messages0, sent, said, answers, saved[|saved| - 1].messages))
    && (end.Suspended? ==> |answers| < |said| && Current(messages0, sent, said, answers, end.frozen.messages))
  }

  lemma NothingSent(m: seq<Message>)
    ensures Chained([], [], []) && Current(m, [], [], [], m) && SavedFrom([], [], [], []) && NoneFinal([])
  {
  }

  lemma Sending(m: seq<Message>, sent: seq<seq<Message>>, said: seq<Message>, answers: seq<seq<Result>>, saved: seq<Checkpoint>, now: seq<Message>)
    requires Chained(sent, said, answers) && |sent| == |answers| && Current(m, sent, said, answers, now) && SavedFrom(sent, said, answers, saved)
    ensures Chained(sent + [now], said, answers) && Current(m, sent + [now], said, answers, now) && SavedFrom(sent + [now], said, answers, saved)
  {
    hide Extends;
  }

  lemma Saying(m: seq<Message>, sent: seq<seq<Message>>, said: seq<Message>, answers: seq<seq<Result>>, saved: seq<Checkpoint>,
               now: seq<Message>, a: Message)
    requires Chained(sent, said, answers) && |sent| == |said| + 1 && Current(m, sent, said, answers, now) && SavedFrom(sent, said, answers, saved)
    ensures Chained(sent, said + [a], answers) && Current(m, sent, said + [a], answers, now + [a]) && SavedFrom(sent, said + [a], answers, saved)
  {
    hide Extends;
  }

  lemma ResultsExtend(before: seq<Message>, a: Message, results: seq<Result>)
    ensures Extends(before, a, results, before + [a] + Messages(results))
  {
  }

  lemma Answering(m: seq<Message>, sent: seq<seq<Message>>, said: seq<Message>, answers: seq<seq<Result>>, saved: seq<Checkpoint>,
                  now: seq<Message>, results: seq<Result>)
    requires Chained(sent, said, answers) && |sent| == |said| == |answers| + 1
    requires Current(m, sent, said, answers, now) && SavedFrom(sent, said, answers, saved)
    ensures Chained(sent, said, answers + [results]) && Current(m, sent, said, answers + [results], now + Messages(results))
    ensures SavedFrom(sent, said, answers + [results], saved)
  {
    hide Extends, Messages;
    ResultsExtend(sent[|sent| - 1], said[|said| - 1], results);
  }

  lemma Saving(m: seq<Message>, sent: seq<seq<Message>>, said: seq<Message>, answers: seq<seq<Result>>, saved: seq<Checkpoint>, now: seq<Message>)
    requires Chained(sent, said, answers) && |sent| == |answers| == |saved| + 1
    requires Current(m, sent, said, answers, now) && SavedFrom(sent, said, answers, saved)
    ensures SavedFrom(sent, said, answers, saved + [Checkpoint(now, false)])
  {
    hide Extends;
  }

  lemma SavingLast(sent: seq<seq<Message>>, said: seq<Message>, answers: seq<seq<Result>>, saved: seq<Checkpoint>, list: seq<Message>)
    requires |answers| <= |said| <= |sent| && SavedFrom(sent, said, answers, saved)
    ensures SavedFrom(sent, said, answers, saved + [Checkpoint(list, true)])
  {
    hide Extends;
  }

  ghost predicate NoneFinal(saved: seq<Checkpoint>) {
    forall i :: 0 <= i < |saved| ==> !saved[i].final
  }

  lemma Stopping(end: End, direct: set<string>, m: seq<Message>, sent: seq<seq<Message>>, said: seq<Message>, answers: seq<seq<Result>>,
                 saved: seq<Checkpoint>, list: seq<Message>)
    requires |answers| <= |said| <= |sent| <= |answers| + 1 && NoneFinal(saved) && end.Stopped?
    requires FinalList(end, direct, m, sent, said, answers, list) && (end == Stopped(Complete) ==> said != [])
    ensures Leaves(end, direct, m, sent, said, answers, saved + [Checkpoint(list, true)])
  {
    hide FinalList;
  }

  lemma Interrupting(end: End, direct: set<string>, m: seq<Message>, sent: seq<seq<Message>>, said: seq<Message>, answers: seq<seq<Result>>,
                     saved: seq<Checkpoint>)
    requires |answers| <= |said| <= |sent| <= |answers| + 1 && NoneFinal(saved) && !end.Stopped?
    requires end.Suspended? ==> |answers| < |said| && Current(m, sent, said, answers, end.frozen.messages)
    ensures Leaves(end, direct, m, sent, said, answers, saved)
  {
  }

  lemma DirectStop(direct: set<string>, m: seq<Message>, sent: seq<seq<Message>>, said: seq<Message>, answers: seq<seq<Result>>,
                   now: seq<Message>, calls: seq<Call>, results: seq<Result>, chosen: Result)
    requires 0 < |answers| == |said| == |sent| && Current(m, sent, said, answers, now) && |results| == |calls|
    requires CallsOf(said[|said| - 1]) == calls && answers[|answers| - 1] == results
    requires exists i :: FirstDirect(direct, calls, results, i) && chosen == results[i]
    ensures FinalList(Stopped(Complete), direct, m, sent, said, answers, now + [Assistant(chosen.text, [])])
  {
    hide Current;
    var i :| FirstDirect(direct, calls, results, i) && chosen == results[i];
    assert DirectEnd(direct, m, sent, said, answers, now + [Assistant(results[i].text, [])]);
  }

  lemma PlainList(end: End, direct: set<string>, m: seq<Message>, sent: seq<seq<Message>>, said: seq<Message>, answers: seq<seq<Result>>,
                  list: seq<Message>)
    requires |answers| <= |said| <= |sent| <= |answers| + 1 && Current(m, sent, said, answers, list)
    requires end == Stopped(Complete) ==> |answers| < |said|
    ensures FinalList(end, direct, m, sent, said, answers, list)
  {
    hide Current, DirectEnd;
  }

  lemma StillNone(saved: seq<Checkpoint>, list: seq<Message>)
    requires NoneFinal(saved)
    ensures NoneFinal(saved + [Checkpoint(list, false)])
  {
  }

  // What the world said, turn by turn, and why the loop ended.

  /** The answer and its charge are the model's for the list it was sent. */
  ghost predicate HeardAt(env: Env, iter: int, list: seq<Message>, said: Message, turn: Turn) {
    var reply := env.model(iter, list);
    reply.Some? && said == Assistant(reply.value.text, reply.value.calls) && turn == Turn(iter, reply.value.tokens)
  }

  /** The model stopped for its calls, the policy, where there is one, let them through, and the tools answered so. */
  ghost predicate WorkedAt(env: Env, iter: int, asks: bool, list: seq<Message>, said: Message, results: seq<Result>) {
    && StopsForTools(env, iter, list)
    && (asks ==> Passes(CallsOf(said), env.policy(iter, list + [said])))
    && RanTools(env, iter, CallsOf(said), results)
  }

  ghost predicate StopsForTools(env: Env, iter: int, list: seq<Message>) {
    var reply := env.model(iter, list);
    reply.Some? && reply.value.wants && reply.value.calls != []
  }

  ghost predicate Faithful(env: Env, lo: int, asks: bool, sent: seq<seq<Message>>, said: seq<Message>, answers: seq<seq<Result>>,
                           turns: seq<Turn>) {
    && |answers| <= |said| == |turns| <= |sent|
    && (forall i: nat :: i < |said| ==> HeardAt(env, lo + i, sent[i], said[i], turns[i]))
    && (forall i: nat :: i < |answers| ==> WorkedAt(env, lo + i, asks, sent[i], said[i], answers[i]))
  }

  /** The tokens charged up to the i-th turn, that one included. */
  ghost function ChargedBy(turns: seq<Turn>, i: nat): nat
    requires i < |turns|
  {
    TokenSum(turns[..i + 1])
  }

  /** The first n batches were each run within the budget. */
  ghost predicate Affords(budget: int, before: int, turns: seq<Turn>, n: nat) {
    n <= |turns| && forall i: nat :: i < n && budget > 0 ==> before + ChargedBy(turns, i) < budget
  }

  /** The policy neither lets the batch through nor has it suspended. */
  ghost predicate Balks(v: Verdict, f: Frozen) {
    && (NoDup(CallIds(f.calls)) ==> !Passes(f.calls, v))
    && !(Coherent(f.calls, v) && Resumable(f) && v.stored)
  }

  /** Why the loop ended, told by the world: a failure is the model's, the policy's or a tool's; a run completes when the
      model does not stop for tools, or directly after a batch; and it is suspended on the batch that the policy flags. */
  ghost predicate EndedBy(end: End, env: Env, lo: int, asks: bool, p: Params, consumed: int, sent: seq<seq<Message>>,
                          said: seq<Message>, answers: seq<seq<Result>>)
  {
    && |answers| <= |said| <= |sent| <= |answers| + 1
    && (|said| < |sent| ==> end == Failed && env.model(lo + |said|, sent[|said|]) == None)
    && (end == Failed ==> |answers| < |sent|)
    && (|answers| < |said| ==>
          var iter, list, calls := lo + |answers|, sent[|answers|], CallsOf(said[|answers|]);
          var v := env.policy(iter, list + [said[|answers|]]);
          var f := Frozen(list + [said[|answers|]], calls, v.pending, p, iter, consumed);
          match end
          case Stopped(Complete) => !StopsForTools(env, iter, list)
          case Stopped(BudgetExhausted) => StopsForTools(env, iter, list)
          case Stopped(MaxIterations) => false
          case Suspended(g) => StopsForTools(env, iter, list) && asks && g == f && Coherent(calls, v) && v.stored
          case Failed => StopsForTools(env, iter, list)
                         && ((asks && Balks(v, f)) || ((asks ==> Passes(calls, v)) && SomeToolFails(env, iter, calls))))
    && (end.Suspended? ==> |answers| < |said|)
  }

  lemma FaithfulNone(env: Env, lo: int, asks: bool, budget: int, before: int)
    ensures Faithful(env, lo, asks, [], [], [], []) && Affords(budget, before, [], 0)
  {
  }

  lemma FaithfulSend(env: Env, lo: int, asks: bool, sent: seq<seq<Message>>, said: seq<Message>, answers: seq<seq<Result>>,
                     turns: seq<Turn>, list: seq<Message>)
    requires Faithful(env, lo, asks, sent, said, answers, turns)
    ensures Faithful(env, lo, asks, sent + [list], said, answers, turns)
  {
    hide HeardAt, WorkedAt;
  }

  lemma FaithfulHear(env: Env, lo: int, asks: bool, sent: seq<seq<Message>>, said: seq<Message>, answers: seq<seq<Result>>,
                     turns: seq<Turn>, reply: Reply)
    requires Faithful(env, lo, asks, sent, said, answers, turns) && |said| < |sent|
    requires env.model(lo + |said|, sent[|said|]) == Some(reply)
    ensures Faithful(env, lo, asks, sent, said + [Assistant(reply.text, reply.calls)], answers, turns + [Turn(lo + |said|, reply.tokens)])
  {
    hide WorkedAt;
  }

  lemma FaithfulWork(env: Env, lo: int, asks: bool, sent: seq<seq<Message>>, said: seq<Message>, answers: seq<seq<Result>>,
                     turns: seq<Turn>, results: seq<Result>)
    requires Faithful(env, lo, asks, sent, said, answers, turns) && |answers| < |said|
    requires WorkedAt(env, lo + |answers|, asks, sent[|answers|], said[|answers|], results)
    ensures Faithful(env, lo, asks, sent, said, answers + [results], turns)
  {
    hide HeardAt, WorkedAt;
  }

  lemma Working(env: Env, iter: int, asks: bool, list: seq<Message>, said: Message, calls: seq<Call>, results: seq<Result>)
    requires StopsForTools(env, iter, list) && said.Assistant? && said.calls == calls
    requires asks ==> Passes(calls, env.policy(iter, list + [said]))
    requires RanTools(env, iter, calls, results)
    ensures WorkedAt(env, iter, asks, list, said, results)
  {
  }

  lemma AffordsTurn(budget: int, before: int, turns: seq<Turn>, n: nat, t: Turn)
    requires Affords(budget, before, turns, n)
    ensures Affords(budget, before, turns + [t], n)
  {
    hide TokenSum;
    forall i: nat | i < n ensures ChargedBy(turns + [t], i) == ChargedBy(turns, i) {
      assert (turns + [t])[..i + 1] == turns[..i + 1];
    }
  }

  lemma AffordsBatch(budget: int, before: int, turns: seq<Turn>, n: nat)
    requires Affords(budget, before, turns, n) && |turns| == n + 1 && (budget > 0 ==> before + TokenSum(turns) < budget)
    ensures Affords(budget, before, turns, n + 1)
  {
    hide TokenSum;
    assert turns[..n + 1] == turns;
  }

  /** Runs iterations from startIter on: checks the budget, asks the model, suspends or runs the tools. */
  method RunReactLoop(env: Env, tracker: BudgetTracker, p: Params, direct: set<string>, asks: bool, messages0: seq<Message>, startIter: int)
    returns (end: End, ghost sent: seq<seq<Message>>, ghost saved: seq<Checkpoint>, ghost turns: seq<Turn>,
             ghost said: seq<Message>, ghost answers: seq<seq<Result>>)
    requires Closed(messages0) && tracker.budget == p.budget
    modifies tracker
    ensures Account(p, startIter, old(tracker.consumed), tracker.consumed, sent, saved, turns)
    ensures EndOk(end, p, startIter, tracker.consumed, turns)
    ensures sent != [] ==> sent[0] == messages0
    ensures |said| == |turns| && Chained(sent, said, answers) && SavedFrom(sent, said, answers, saved)
    ensures Leaves(end, direct, messages0, sent, said, answers, saved)
    ensures Faithful(env, startIter, asks, sent, said, answers, turns)
    ensures Affords(p.budget, old(tracker.consumed), turns, |answers|)
    ensures EndedBy(end, env, startIter, asks, p, tracker.consumed, sent, said, answers)
  {
    hide Faithful, Affords, WorkedAt, HeardAt, RanTools, SomeToolFails, Passes, Coherent, Closed, Resumable, OpenAt,
         AllClosed, SavedClosed, TurnsIn, Consecutive, TokenSum, Answers, FirstDirect, Chained, Current, SavedFrom,
         FinalList, Leaves, NoneFinal;
    var messages, iter := messages0, startIter;
    sent, saved, turns, said, answers := [], [], [], [], [];
    Nothing(startIter);
    NothingSent(messages0);
    FaithfulNone(env, startIter, asks, p.budget, tracker.consumed);
    while iter < p.maxIter
      invariant startIter <= iter && (iter <= p.maxIter || iter == startIter)
      invariant Closed(messages) && AllClosed(sent) && SavedClosed(saved)
      invariant Consecutive(turns, startIter, iter)
      invariant tracker.consumed == old(tracker.consumed) + TokenSum(turns)
      invariant StartedWithin(p.budget, tracker.consumed, turns)
      invariant if sent == [] then messages == messages0 else sent[0] == messages0
      invariant |sent| == |said| == |answers| == |saved| == |turns| && NoneFinal(saved)
      invariant Chained(sent, said, answers) && Current(messages0, sent, said, answers, messages)
      invariant SavedFrom(sent, said, answers, saved)
      invariant iter == startIter + |turns|
      invariant Faithful(env, startIter, asks, sent, said, answers, turns)
      invariant Affords(p.budget, old(tracker.consumed), turns, |answers|)
    {
      ConsecutiveIn(turns, startIter, iter, p.maxIter);
      if tracker.Exhausted() {
        end := Stopped(BudgetExhausted);
        PlainList(end, direct, messages0, sent, said, answers, messages);
        Stopping(end, direct, messages0, sent, said, answers, saved, messages);
        SavingLast(sent, said, answers, saved, messages);
        SaveOne(saved, Checkpoint(messages, true));
        saved := saved + [Checkpoint(messages, true)];
        return;
      }
      SendOne(sent, messages);
      Sending(messages0, sent, said, answers, saved, messages);
      FaithfulSend(env, startIter, asks, sent, said, answers, turns, messages);
      sent := sent + [messages];
      var reply := env.model(iter, messages);
      if reply.None? {
        Interrupting(Failed, direct, messages0, sent, said, answers, saved);
        end := Failed;
        return;
      }
      var Reply(text, calls, wantsTools, tokens) := reply.value;
      OneMoreTurn(turns, startIter, iter, tokens);
      FaithfulHear(env, startIter, asks, sent, said, answers, turns, reply.value);
      AffordsTurn(p.budget, old(tracker.consumed), turns, |answers|, Turn(iter, tokens));
      turns := turns + [Turn(iter, tokens)];
      ConsecutiveIn(turns, startIter, iter + 1, p.maxIter);
      LastTurn(turns, startIter, iter);
      var exhausted := tracker.Add(tokens);
      OpenBatch(messages, text, calls, [], p, iter, tracker.consumed);
      var continuation := messages + [Assistant(text, calls)];
      Saying(messages0, sent, said, answers, saved, messages, Assistant(text, calls));
      said := said + [Assistant(text, calls)];
      SaveOne(saved, Checkpoint(continuation, true));
      SavingLast(sent, said, answers, saved, continuation);
      if !wantsTools || |calls| == 0 {
        end := Stopped(Complete);
        PlainList(end, direct, messages0, sent, said, answers, continuation);
        Stopping(end, direct, messages0, sent, said, answers, saved, continuation);
        saved := saved + [Checkpoint(continuation, true)];
        return;
      }
      if exhausted {
        end := Stopped(BudgetExhausted);
        PlainList(end, direct, messages0, sent, said, answers, continuation);
        Stopping(end, direct, messages0, sent, said, answers, saved, continuation);
        saved := saved + [Checkpoint(continuation, true)];
        return;
      }
      if asks {
        var verdict := env.policy(iter, continuation);
        var asked := MaybeInterrupt(p, iter, tracker.consumed, continuation, calls, verdict);
        if asked.Broken? {
          Interrupting(Failed, direct, messages0, sent, said, answers, saved);
          end := Failed;
          return;
        }
        if asked.Persisted? {
          OpenBatch(messages, text, calls, asked.frozen.pending, p, iter, tracker.consumed);
          end := Suspended(asked.frozen);
          Interrupting(end, direct, messages0, sent, said, answers, saved);
          return;
        }
      }
      var results := ExecuteToolBatch(env, iter, calls);
      if results.None? {
        Interrupting(Failed, direct, messages0, sent, said, answers, saved);
        end := Failed;
        return;
      }
      Answering(messages0, sent, said, answers, saved, continuation, results.value);
      Working(env, iter, asks, messages, said[|answers|], calls, results.value);
      FaithfulWork(env, startIter, asks, sent, said, answers, turns, results.value);
      AffordsBatch(p.budget, old(tracker.consumed), turns, |answers|);
      answers := answers + [results.value];
      ClosedBatch(messages, text, calls, Messages(results.value));
      SameCount(calls, results.value);
      messages := continuation + Messages(results.value);
      var chosen := ReturnDirectResult(direct, calls, results.value);
      if chosen.Some? {
        DirectStop(direct, messages0, sent, said, answers, messages, calls, results.value, chosen.value);
        messages := messages + [Assistant(chosen.value.text, [])];
        end := Stopped(Complete);
        Stopping(end, direct, messages0, sent, said, answers, saved, messages);
        SavingLast(sent, said, answers, saved, messages);
        SaveOne(saved, Checkpoint(messages, true));
        saved := saved + [Checkpoint(messages, true)];
        return;
      }
      Saving(messages0, sent, said, answers, saved, messages);
      SaveOne(saved, Checkpoint(messages, false));
      assert NoneFinal(saved + [Checkpoint(messages, false)]) by { StillNone(saved, messages); }
      saved := saved + [Checkpoint(messages, false)];
      iter := iter + 1;
    }
    end := Stopped(MaxIterations);
    PlainList(end, direct, messages0, sent, said, answers, messages);
    Stopping(end, direct, messages0, sent, said, answers, saved, messages);
    SavingLast(sent, said, answers, saved, messages);
    SaveOne(saved, Checkpoint(messages, true));
    saved := saved + [Checkpoint(messages, true)];
    AllTurns(turns, startIter, iter, p.maxIter);
  }

  lemma Nothing(lo: int)
    ensures AllClosed([]) && SavedClosed([]) && Consecutive([], lo, lo) && TokenSum([]) == 0
  {
  }

  lemma LastTurn(turns: seq<Turn>, lo: int, iter: int)
    requires Consecutive(turns, lo, iter + 1) && lo <= iter
    ensures turns != [] && turns[|turns| - 1].iter == iter
  {
  }

  lemma SameCount(calls: seq<Call>, results: seq<Result>)
    requires Answers(calls, Messages(results))
    ensures |calls| == |results|
  {
  }

  lemma AllTurns(turns: seq<Turn>, lo: int, iter: int, hi: int)
    requires Consecutive(turns, lo, iter) && hi <= iter && (iter <= hi || iter == lo)
    ensures TurnsIn(turns, lo, hi) && |turns| == if lo <= hi then hi - lo else 0
  {
    if iter <= hi {
      ConsecutiveIn(turns, lo, iter, hi);
    }
  }

  // ---- resuming

  /** An approved call is run again; a rejected one never is. */
  predicate Approved(d: Interrupt.Decision) {
    d.execute && !d.isError
  }

  /** The handler of c runs on resume. */
  predicate Runs(c: Call, pending: seq<string>, ds: map<string, Interrupt.Decision>) {
    c.id !in pending || (c.id in ds && Approved(ds[c.id]))
  }

  /** The calls whose handlers run on resume, in call order. */
  function Runnable(calls: seq<Call>, pending: seq<string>, ds: map<string, Interrupt.Decision>): seq<Call> {
    if calls == [] then []
    else Runnable(calls[..|calls| - 1], pending, ds) + if Runs(calls[|calls| - 1], pending, ds) then [calls[|calls| - 1]] else []
  }

  /** Exactly the calls that were never pending and those approved for execution without error. */
  lemma {:induction false} RunnableMeans(calls: seq<Call>, pending: seq<string>, ds: map<string, Interrupt.Decision>, c: Call)
    ensures c in Runnable(calls, pending, ds) <==>
              c in calls && (c.id !in pending || (c.id in ds && ds[c.id].execute && !ds[c.id].isError))
  {
    if calls != [] {
      var last := |calls| - 1;
      RunnableMeans(calls[..last], pending, ds, c);
      assert calls == calls[..last] + [calls[last]];
    }
  }

  /** A decision as a resume request carries it. */
  datatype WireDecision = WireDecision(callId: string, content: string, isError: bool)

  /** As the store gets it: without an approval to run the handler, and not yet stamped. */
  function StoreForm(d: WireDecision): Interrupt.Decision {
    Interrupt.Decision(d.callId, d.content, d.isError, false, Interrupt.NO_TIME)
  }

  method ToStoreDecisions(ds: seq<WireDecision>) returns (r: seq<Interrupt.Decision>)
    ensures |r| == |ds| && forall i :: 0 <= i < |ds| ==> r[i] == StoreForm(ds[i])
    ensures forall i :: 0 <= i < |ds| ==>
              r[i].callId == ds[i].callId && r[i].content == ds[i].content && (r[i].isError <==> ds[i].isError) && !r[i].execute
  {
    r := [];
    for i := 0 to |ds|
      invariant |r| == i && forall k :: 0 <= k < i ==> r[k] == StoreForm(ds[k])
    {
      r := r + [StoreForm(ds[i])];
    }
  }

  /** Decisions come in only with resume requests. */
  ghost predicate OnlyByResume(ops: seq<Interrupt.Op>) {
    forall i :: 0 <= i < |ops| && ops[i].SubmitOp? ==>
      exists ds: seq<WireDecision> :: |ds| == |ops[i].ds| && forall k :: 0 <= k < |ds| ==> ops[i].ds[k] == StoreForm(ds[k])
  }

  ghost predicate NoneApproved(ds: map<string, Interrupt.Decision>) {
    forall id :: id in ds ==> !Approved(ds[id])
  }

  lemma StepApprovesNone(r: Interrupt.Rec, op: Interrupt.Op)
    requires NoneApproved(r.decisions) && (op.SubmitOp? ==> forall k :: 0 <= k < |op.ds| ==> !op.ds[k].execute)
    ensures NoneApproved(Interrupt.Step(r, op).0.decisions)
  {
    if op.SubmitOp? {
      Interrupt.TakeKeeps(r.pending, r.decisions, op.ds, op.now);
      Interrupt.TakePrefix(r.pending, r.decisions, op.ds, op.now);
      var t := Interrupt.Take(r.pending, r.decisions, op.ds, op.now);
      forall id | id in t.decisions ensures !Approved(t.decisions[id]) {
        if id in r.decisions {
          assert t.decisions[id] == r.decisions[id];
        }
      }
    }
  }

  lemma {:induction false} HistoryApprovesNone(r: Interrupt.Rec, ops: seq<Interrupt.Op>)
    requires NoneApproved(r.decisions) && OnlyByResume(ops)
    ensures NoneApproved(Interrupt.After(r, ops).decisions)
  {
    hide Interrupt.Step, NoneApproved;
    if ops != [] {
      var init, op := ops[..|ops| - 1], ops[|ops| - 1];
      assert forall i :: 0 <= i < |init| ==> init[i] == ops[i];
      HistoryApprovesNone(r, init);
      StepApprovesNone(Interrupt.After(r, init), op);
    }
  }

  /** Resume requests never approve a handler: as long as decisions come only with them, exactly the calls that were not
      pending run, whatever was decided and by however many requests. */
  lemma ResumeNeverApproves(r: Interrupt.Rec, ops: seq<Interrupt.Op>, calls: seq<Call>, c: Call)
    requires Interrupt.Born(r) && OnlyByResume(ops)
    ensures c in Runnable(calls, r.pending, Interrupt.After(r, ops).decisions) <==> c in calls && c.id !in r.pending
  {
    hide Interrupt.After, Runnable;
    HistoryApprovesNone(r, ops);
    RunnableMeans(calls, r.pending, Interrupt.After(r, ops).decisions, c);
  }

  lemma RunnableNext(calls: seq<Call>, i: nat, pending: seq<string>, ds: map<string, Interrupt.Decision>)
    requires i < |calls|
    ensures Runnable(calls[..i + 1], pending, ds)
            == Runnable(calls[..i], pending, ds) + if Runs(calls[i], pending, ds) then [calls[i]] else []
  {
    assert calls[..i + 1][..i] == calls[..i];
  }

  lemma {:induction false} RunnablePrefix(calls: seq<Call>, i: nat, pending: seq<string>, ds: map<string, Interrupt.Decision>)
    requires i <= |calls|
    ensures Runnable(calls[..i], pending, ds) <= Runnable(calls, pending, ds)
    decreases |calls| - i
  {
    if i < |calls| {
      RunnableNext(calls, i, pending, ds);
      RunnablePrefix(calls, i + 1, pending, ds);
    } else {
      assert calls[..i] == calls;
    }
  }

  /** A human's answer as a tool result. */
  function Injected(c: Call, d: Interrupt.Decision): Result {
    Result(c.id, d.content, d.isError)
  }

  /** A guard may rewrite what a result says, not whose it is. */
  function Guarded(guard: Result -> (string, bool), r: Result): Result {
    Result(r.id, guard(r).0, guard(r).1)
  }

  /** Call i of a resumed batch: a pending call that does not run carries the human's answer, guarded; the others carry
      their own results, in order. */
  ghost predicate Resolved(calls: seq<Call>, pending: seq<string>, ds: map<string, Interrupt.Decision>, guard: Result -> (string, bool),
                           ran: seq<Result>, results: seq<Result>, i: nat)
    requires i < |calls| && i < |results|
  {
    var c := calls[i];
    if Runs(c, pending, ds) then
      |Runnable(calls[..i], pending, ds)| < |ran| && results[i] == ran[|Runnable(calls[..i], pending, ds)|]
    else
      && c.id in ds && results[i].id == c.id
      && (results[i].text, results[i].isError) == guard(Result(c.id, ds[c.id].content, ds[c.id].isError))
  }

  ghost predicate ResolvedTo(calls: seq<Call>, pending: seq<string>, ds: map<string, Interrupt.Decision>, guard: Result -> (string, bool),
                             ran: seq<Result>, results: seq<Result>, n: nat)
  {
    n == |results| <= |calls| && forall i :: 0 <= i < n ==> results[i].id == calls[i].id && Resolved(calls, pending, ds, guard, ran, results, i)
  }

  lemma ResolveNext(calls: seq<Call>, pending: seq<string>, ds: map<string, Interrupt.Decision>, guard: Result -> (string, bool),
                    ran: seq<Result>, results: seq<Result>, n: nat, r: Result)
    requires ResolvedTo(calls, pending, ds, guard, ran, results, n) && n < |calls|
    requires r.id == calls[n].id && Resolved(calls, pending, ds, guard, ran, results + [r], n)
    ensures ResolvedTo(calls, pending, ds, guard, ran, results + [r], n + 1)
  {
    hide Runnable, Runs, Guarded;
    var more := results + [r];
    forall i | 0 <= i < n + 1 ensures more[i].id == calls[i].id && Resolved(calls, pending, ds, guard, ran, more, i) {
      if i < n {
        assert more[i] == results[i];
      }
    }
  }

  lemma ResolvedAnswers(calls: seq<Call>, pending: seq<string>, ds: map<string, Interrupt.Decision>, guard: Result -> (string, bool),
                        ran: seq<Result>, results: seq<Result>)
    requires ResolvedTo(calls, pending, ds, guard, ran, results, |calls|)
    ensures Answers(calls, Messages(results))
  {
    hide Resolved;
  }

  /** How a whole batch was resolved: the handlers of handled ran and answered, everything else is a human's answer. */
  ghost predicate Reconciled(env: Env, f: Frozen, ds: map<string, Interrupt.Decision>, guard: Result -> (string, bool), handled: seq<Call>,
                             results: seq<Result>)
  {
    exists ran :: RanTools(env, f.iteration, handled, ran) && ResolvedTo(f.calls, f.pending, ds, guard, ran, results, |f.calls|)
  }

  ghost predicate Decided(f: Frozen, ds: map<string, Interrupt.Decision>) {
    forall id :: id in f.pending ==> id in ds
  }

  /** Resolves a suspended batch: runs what is to run, and injects the human's answers for the rest, in call order. */
  method ReconcileInterruptBatch(env: Env, f: Frozen, ds: map<string, Interrupt.Decision>, guard: Result -> (string, bool))
    returns (r: Option<seq<Result>>, ghost handled: seq<Call>)
    requires Decided(f, ds)
    ensures handled == Runnable(f.calls, f.pending, ds)
    ensures r.Some? ==> Answers(f.calls, Messages(r.value))
    ensures r.Some? ==> Reconciled(env, f, ds, guard, Runnable(f.calls, f.pending, ds), r.value)
    ensures r.None? <==> SomeToolFails(env, f.iteration, handled)
  {
    hide SomeToolFails, RanTools, Runnable, Answers, ResolvedTo, Guarded;
    var toExecute: seq<Call> := [];
    NoneRunnable(f.pending, ds);
    for i := 0 to |f.calls|
      invariant toExecute == Runnable(f.calls[..i], f.pending, ds)
    {
      RunnableNext(f.calls, i, f.pending, ds);
      var c := f.calls[i];
      if c.id in f.pending {
        if Approved(ds[c.id]) {
          toExecute := toExecute + [c];
        }
      } else {
        toExecute := toExecute + [c];
      }
    }
    assert f.calls[..|f.calls|] == f.calls;
    handled := toExecute;
    var ran := ExecuteToolBatch(env, f.iteration, toExecute);
    if ran.None? { return None, handled; }
    var results: seq<Result>, execIdx := [], 0;
    NoneResolved(f, ds, guard, ran.value);
    for i := 0 to |f.calls|
      invariant execIdx == |Runnable(f.calls[..i], f.pending, ds)|
      invariant ResolvedTo(f.calls, f.pending, ds, guard, ran.value, results, i)
    {
      RunnableNext(f.calls, i, f.pending, ds);
      RunnablePrefix(f.calls, i + 1, f.pending, ds);
      LengthIs(f.calls, f.pending, ds, guard, ran.value, results, i);
      var c := f.calls[i];
      var result;
      if c.id in f.pending && !Approved(ds[c.id]) {
        result := Guarded(guard, Injected(c, ds[c.id]));
        GuardKeepsId(guard, Injected(c, ds[c.id]));
      } else {
        RanAt(toExecute, ran.value, execIdx);
        result := ran.value[execIdx];
        execIdx := execIdx + 1;
      }
      ResolveNext(f.calls, f.pending, ds, guard, ran.value, results, i, result);
      results := results + [result];
    }
    ResolvedAnswers(f.calls, f.pending, ds, guard, ran.value, results);
    r := Some(results);
  }

  lemma NoneRunnable(pending: seq<string>, ds: map<string, Interrupt.Decision>)
    ensures Runnable([], pending, ds) == []
  {
  }

  lemma NoneResolved(f: Frozen, ds: map<string, Interrupt.Decision>, guard: Result -> (string, bool), ran: seq<Result>)
    ensures ResolvedTo(f.calls, f.pending, ds, guard, ran, [], 0)
  {
  }

  lemma LengthIs(calls: seq<Call>, pending: seq<string>, ds: map<string, Interrupt.Decision>, guard: Result -> (string, bool),
                 ran: seq<Result>, results: seq<Result>, n: nat)
    requires ResolvedTo(calls, pending, ds, guard, ran, results, n)
    ensures n == |results|
  {
  }

  lemma GuardKeepsId(guard: Result -> (string, bool), r: Result)
    ensures Guarded(guard, r).id == r.id && (Guarded(guard, r).text, Guarded(guard, r).isError) == guard(r)
  {
  }

  lemma RanAt(calls: seq<Call>, results: seq<Result>, k: nat)
    requires Answers(calls, Messages(results)) && k < |calls|
    ensures |results| == |calls| && results[k].id == calls[k].id
  {
    assert Messages(results)[k].id == results[k].id;
  }

  // ---- one logical run

  lemma ClosedResume(f: Frozen, answers: seq<Message>)
    requires OpenAt(f) && Answers(f.calls, answers)
    ensures Closed(f.messages + answers)
  {
    hide Closed, Answers;
    var last := |f.messages| - 1;
    ClosedBatch(f.messages[..last], f.messages[last].text, f.calls, answers);
    assert f.messages == f.messages[..last] + [Assistant(f.messages[last].text, f.calls)];
  }

  /** The list a run goes on with: the persisted one, whose last message asked for the batch, and the batch's results. */
  ghost predicate Reopens(messages: seq<Message>, results: seq<Result>, list: seq<Message>) {
    messages != [] && Extends(messages[..|messages| - 1], messages[|messages| - 1], results, list)
  }

  /** A direct result among those of the resumed batch ends the run without another call and without a checkpoint. */
  ghost predicate DirectAtOnce(end: End, direct: set<string>, calls: seq<Call>, results: seq<Result>, sent: seq<seq<Message>>, saved: seq<Checkpoint>) {
    && end == Stopped(Complete) && sent == [] && saved == []
    && |results| == |calls| && exists i :: FirstDirect(direct, calls, results, i)
  }

  lemma AtOnce(direct: set<string>, calls: seq<Call>, results: seq<Result>)
    requires |results| == |calls| && exists i :: FirstDirect(direct, calls, results, i)
    ensures DirectAtOnce(Stopped(Complete), direct, calls, results, [], [])
  {
  }

  lemma OpenExtends(f: Frozen, results: seq<Result>)
    requires OpenAt(f)
    ensures Reopens(f.messages, results, f.messages + Messages(results))
  {
    hide Closed, Extends;
    var last := |f.messages| - 1;
    ResultsExtend(f.messages[..last], f.messages[last], results);
    assert f.messages == f.messages[..last] + [f.messages[last]];
  }

  /** Continues a suspended run where it stopped: same parameters, same charge, the next iteration. */
  method ResumeFromInterrupt(env: Env, f: Frozen, ds: map<string, Interrupt.Decision>, direct: set<string>, asks: bool, guard: Result -> (string, bool))
    returns (end: End, consumed: int, ghost handled: seq<Call>, ghost sent: seq<seq<Message>>, ghost saved: seq<Checkpoint>, ghost turns: seq<Turn>,
             ghost said: seq<Message>, ghost answers: seq<seq<Result>>, ghost reconciled: Option<seq<Result>>, ghost list: seq<Message>)
    requires OpenAt(f) && Decided(f, ds)
    ensures handled == Runnable(f.calls, f.pending, ds)
    ensures Account(f.params, f.iteration + 1, f.consumed, consumed, sent, saved, turns)
    ensures EndOk(end, f.params, f.iteration + 1, consumed, turns)
    ensures |said| == |turns| && Chained(sent, said, answers) && SavedFrom(sent, said, answers, saved)
    ensures reconciled.None? <==> SomeToolFails(env, f.iteration, handled)
    ensures reconciled.None? ==> end.Failed? && sent == [] && said == [] && saved == []
    ensures Faithful(env, f.iteration + 1, asks, sent, said, answers, turns) && Affords(f.params.budget, f.consumed, turns, |answers|)
    ensures reconciled.Some? ==> EndedBy(end, env, f.iteration + 1, asks, f.params, consumed, sent, said, answers)
    ensures reconciled.Some? ==>
              && Answers(f.calls, Messages(reconciled.value))
              && Reconciled(env, f, ds, guard, Runnable(f.calls, f.pending, ds), reconciled.value)
              && Reopens(f.messages, reconciled.value, list)
              && (sent != [] ==> sent[0] == list)
              && (Leaves(end, direct, list, sent, said, answers, saved) || DirectAtOnce(end, direct, f.calls, reconciled.value, sent, saved))
    ensures consumed >= f.consumed
    ensures end.Suspended? ==> Resumable(end.frozen) && OpenAt(end.frozen) && end.frozen.params == f.params
    ensures end.Suspended? ==> f.iteration < end.frozen.iteration < f.params.maxIter && end.frozen.consumed == consumed
  {
    hide Closed, OpenAt, Resumable, Runnable, AllClosed, SavedClosed, TurnsIn, TokenSum, Answers, Reconciled, Decided,
         Chained, SavedFrom, Leaves, Reopens, DirectAtOnce, Faithful, Affords, SomeToolFails;
    FaithfulNone(env, f.iteration + 1, asks, f.params.budget, f.consumed);
    sent, saved, turns, consumed, said, answers, reconciled, list := [], [], [], f.consumed, [], [], None, [];
    NothingSent(f.messages);
    NoTurns(f.iteration + 1, f.params.maxIter);
    var results;
    results, handled := ReconcileInterruptBatch(env, f, ds, guard);
    if results.None? {
      end := Failed;
      return;
    }
    ClosedResume(f, Messages(results.value));
    SameCount(f.calls, results.value);
    reconciled, list := results, f.messages + Messages(results.value);
    OpenExtends(f, results.value);
    var chosen := ReturnDirectResult(direct, f.calls, results.value);
    if chosen.Some? {
      end := Stopped(Complete);
      AtOnce(direct, f.calls, results.value);
      return;
    }
    var tracker := new BudgetTracker(f.params.budget, f.consumed);
    end, sent, saved, turns, said, answers := RunReactLoop(env, tracker, f.params, direct, asks, f.messages + Messages(results.value), f.iteration + 1);
    consumed := tracker.consumed;
    LastIn(turns, f.iteration + 1, f.params.maxIter);
  }

  lemma NoTurns(lo: int, hi: int)
    ensures AllClosed([]) && SavedClosed([]) && TurnsIn([], lo, hi) && TokenSum([]) == 0
  {
  }

  /** Replaces a suspended batch because the policy changed: same messages, calls, iteration and charge, decided anew. */
  function Superseded(f: Frozen, pending: seq<string>): Frozen {
    f.(pending := pending)
  }

  lemma SupersededIsOpen(f: Frozen, pending: seq<string>)
    requires Resumable(f) && OpenAt(f) && pending != [] && Policy.PendingSubset(CallIds(f.calls), pending)
    ensures Resumable(Superseded(f, pending)) && OpenAt(Superseded(f, pending))
  {
    hide Closed;
  }

  lemma AccountsJoin(p: Params, iter: int, before: int, mid: int, after: int, sent: seq<seq<Message>>, sent1: seq<seq<Message>>,
                     saved: seq<Checkpoint>, saved1: seq<Checkpoint>, turns: seq<Turn>, turns1: seq<Turn>)
    requires Account(p, 0, before, mid, sent, saved, turns) && turns != [] && turns[|turns| - 1].iter == iter
    requires Account(p, iter + 1, mid, after, sent1, saved1, turns1)
    ensures Account(p, 0, before, after, sent + sent1, saved + saved1, turns + turns1)
  {
    hide Closed, TokenSum;
    TokenSumJoin(turns, turns1);
    assert turns1 == [] ==> turns + turns1 == turns;
  }

  /** A resumed batch: the decisions it was resumed with and the calls whose handlers ran. */
  datatype Batch = Batch(frozen: Frozen, decisions: map<string, Interrupt.Decision>, handled: seq<Call>)

  /** A batch is resumed only when all of it is decided, and runs exactly what may run. */
  ghost predicate BatchOk(b: Batch) {
    Decided(b.frozen, b.decisions) && b.handled == Runnable(b.frozen.calls, b.frozen.pending, b.decisions)
  }

  ghost predicate BatchesOk(bs: seq<Batch>) {
    forall i :: 0 <= i < |bs| ==> BatchOk(bs[i])
  }

  lemma AnotherBatch(bs: seq<Batch>, b: Batch)
    requires BatchesOk(bs) && BatchOk(b)
    ensures BatchesOk(bs + [b])
  {
    hide BatchOk;
  }

  /** Every checkpoint one could resume from is the list after some batch. */
  ghost predicate SavedAlong(sent: seq<seq<Message>>, said: seq<Message>, answers: seq<seq<Result>>, saved: seq<Checkpoint>)
    requires |answers| <= |said| <= |sent|
  {
    forall k :: 0 <= k < |saved| && !saved[k].final ==> SavedAt(sent, said, answers, saved[k].messages)
  }

  ghost predicate SavedAt(sent: seq<seq<Message>>, said: seq<Message>, answers: seq<seq<Result>>, list: seq<Message>)
    requires |answers| <= |said| <= |sent|
  {
    exists i: nat :: i < |answers| && Extends(sent[i], said[i], answers[i], list)
  }

  /** The account of a run so far, however often it was suspended and resumed. */
  ghost predicate Soundly(end: End, direct: set<string>, m: seq<Message>, sent: seq<seq<Message>>, said: seq<Message>,
                          answers: seq<seq<Result>>, saved: seq<Checkpoint>)
  {
    && Chained(sent, said, answers) && (sent != [] ==> sent[0] == m)
    && SavedAlong(sent, said, answers, saved)
    && (end.Suspended? ==> |answers| < |said| && Current(m, sent, said, answers, end.frozen.messages))
    && (saved != [] && saved[|saved| - 1].final ==> FinalList(end, direct, m, sent, said, answers, saved[|saved| - 1].messages))
    && (end.Suspended? ==> NoneFinal(saved))
  }

  lemma FirstPart(end: End, direct: set<string>, m: seq<Message>, sent: seq<seq<Message>>, said: seq<Message>,
                  answers: seq<seq<Result>>, saved: seq<Checkpoint>)
    requires Chained(sent, said, answers) && SavedFrom(sent, said, answers, saved) && Leaves(end, direct, m, sent, said, answers, saved)
    requires sent != [] ==> sent[0] == m
    ensures Soundly(end, direct, m, sent, said, answers, saved)
  {
    hide Extends, Current, FinalList;
  }

  lemma Told(end: End, direct: set<string>, m: seq<Message>, sent: seq<seq<Message>>, said: seq<Message>,
             answers: seq<seq<Result>>, saved: seq<Checkpoint>)
    requires Soundly(end, direct, m, sent, said, answers, saved)
    ensures Chained(sent, said, answers) && (sent != [] ==> sent[0] == m) && SavedAlong(sent, said, answers, saved)
    ensures end.Suspended? ==> |answers| < |said| && Current(m, sent, said, answers, end.frozen.messages)
    ensures saved != [] && saved[|saved| - 1].final ==> FinalList(end, direct, m, sent, said, answers, saved[|saved| - 1].messages)
  {
    hide Extends, Current, FinalList;
  }

  lemma BrokenPart(end: End, direct: set<string>, m: seq<Message>, sent: seq<seq<Message>>, said: seq<Message>,
                   answers: seq<seq<Result>>, saved: seq<Checkpoint>)
    requires Soundly(end, direct, m, sent, said, answers, saved) && end.Suspended?
    ensures Soundly(Failed, direct, m, sent, said, answers, saved)
  {
    hide Extends, Current, FinalList;
  }

  lemma ChainJoin(sent: seq<seq<Message>>, said: seq<Message>, answers: seq<seq<Result>>, results: seq<Result>, list: seq<Message>,
                  sent1: seq<seq<Message>>, said1: seq<Message>, answers1: seq<seq<Result>>)
    requires Chained(sent, said, answers) && |sent| == |said| == |answers| + 1
    requires Extends(sent[|sent| - 1], said[|said| - 1], results, list)
    requires Chained(sent1, said1, answers1) && (sent1 != [] ==> sent1[0] == list)
    ensures Chained(sent + sent1, said + said1, answers + [results] + answers1)
  {
    hide Extends;
    var s, a, r, n := sent + sent1, said + said1, answers + [results] + answers1, |sent|;
    forall i: nat | i + 1 < |s| ensures Extends(s[i], a[i], r[i], s[i + 1]) {
      if i + 1 < n {
        assert Extends(sent[i], said[i], answers[i], sent[i + 1]);
      } else if i >= n {
        var k: nat := i - n;
        assert Extends(sent1[k], said1[k], answers1[k], sent1[k + 1]);
      }
    }
  }

  lemma CurrentJoin(m: seq<Message>, sent: seq<seq<Message>>, said: seq<Message>, answers: seq<seq<Result>>, results: seq<Result>,
                    list: seq<Message>, sent1: seq<seq<Message>>, said1: seq<Message>, answers1: seq<seq<Result>>, now: seq<Message>)
    requires |sent| == |said| == |answers| + 1 && Extends(sent[|sent| - 1], said[|said| - 1], results, list)
    requires |answers1| <= |said1| <= |sent1| <= |answers1| + 1
    ensures Current(list, sent1, said1, answers1, now) ==> Current(m, sent + sent1, said + said1, answers + [results] + answers1, now)
  {
    hide Extends;
  }

  lemma EndsDirectly(direct: set<string>, m: seq<Message>, sent: seq<seq<Message>>, said: seq<Message>, answers: seq<seq<Result>>,
                     last: seq<Message>, now: seq<Message>, i: int)
    requires 0 < |answers| == |said| == |sent| && Current(m, sent, said, answers, now)
    requires var calls, results := CallsOf(said[|said| - 1]), answers[|answers| - 1];
             |results| == |calls| && FirstDirect(direct, calls, results, i) && last == now + [Assistant(results[i].text, [])]
    ensures DirectEnd(direct, m, sent, said, answers, last)
  {
    hide Extends, Current;
  }

  lemma FinalJoin(end: End, direct: set<string>, m: seq<Message>, sent: seq<seq<Message>>, said: seq<Message>, answers: seq<seq<Result>>,
                  results: seq<Result>, list: seq<Message>, sent1: seq<seq<Message>>, said1: seq<Message>, answers1: seq<seq<Result>>,
                  last: seq<Message>)
    requires |sent| == |said| == |answers| + 1 && Extends(sent[|sent| - 1], said[|said| - 1], results, list)
    requires |answers1| <= |said1| <= |sent1| <= |answers1| + 1 && FinalList(end, direct, list, sent1, said1, answers1, last)
    requires end == Stopped(Complete) ==> said1 != []
    ensures FinalList(end, direct, m, sent + sent1, said + said1, answers + [results] + answers1, last)
  {
    hide Extends, Current;
    var s, a, r := sent + sent1, said + said1, answers + [results] + answers1;
    if end == Stopped(Complete) && 0 < |answers1| == |said1| == |sent1| {
      var calls, rs := CallsOf(said1[|said1| - 1]), answers1[|answers1| - 1];
      var now, i :| Current(list, sent1, said1, answers1, now) && FirstDirect(direct, calls, rs, i)
                    && last == now + [Assistant(rs[i].text, [])];
      CurrentJoin(m, sent, said, answers, results, list, sent1, said1, answers1, now);
      assert a[|a| - 1] == said1[|said1| - 1] && r[|r| - 1] == rs;
      EndsDirectly(direct, m, s, a, r, last, now, i);
    } else {
      CurrentJoin(m, sent, said, answers, results, list, sent1, said1, answers1, last);
    }
  }

  lemma SavedJoin(sent: seq<seq<Message>>, said: seq<Message>, answers: seq<seq<Result>>, saved: seq<Checkpoint>, results: seq<Result>,
                  sent1: seq<seq<Message>>, said1: seq<Message>, answers1: seq<seq<Result>>, saved1: seq<Checkpoint>)
    requires |sent| == |said| == |answers| + 1 && |answers1| <= |said1| <= |sent1|
    requires SavedAlong(sent, said, answers, saved) && SavedFrom(sent1, said1, answers1, saved1)
    ensures SavedAlong(sent + sent1, said + said1, answers + [results] + answers1, saved + saved1)
  {
    hide Extends;
    var s, a, r, all := sent + sent1, said + said1, answers + [results] + answers1, saved + saved1;
    forall k | 0 <= k < |all| && !all[k].final ensures SavedAt(s, a, r, all[k].messages) {
      if k < |saved| {
        assert SavedAt(sent, said, answers, saved[k].messages);
        var i: nat :| i < |answers| && Extends(sent[i], said[i], answers[i], saved[k].messages);
        assert Extends(s[i], a[i], r[i], all[k].messages);
      } else {
        var i: nat := k - |saved|;
        assert Extends(sent1[i], said1[i], answers1[i], saved1[i].messages);
        var l: nat := |sent| + i;
        assert Extends(s[l], a[l], r[l], all[k].messages);
      }
    }
  }

  /** A resumed part joins the parts before it. */
  lemma NextPart(end: End, direct: set<string>, m: seq<Message>, sent: seq<seq<Message>>, said: seq<Message>, answers: seq<seq<Result>>,
                 saved: seq<Checkpoint>, f: Frozen, calls: seq<Call>, results: seq<Result>, list: seq<Message>,
                 sent1: seq<seq<Message>>, said1: seq<Message>, answers1: seq<seq<Result>>, saved1: seq<Checkpoint>)
    requires Soundly(Suspended(f), direct, m, sent, said, answers, saved) && Reopens(f.messages, results, list)
    requires Chained(sent1, said1, answers1) && (sent1 != [] ==> sent1[0] == list) && SavedFrom(sent1, said1, answers1, saved1)
    requires Leaves(end, direct, list, sent1, said1, answers1, saved1) || DirectAtOnce(end, direct, calls, results, sent1, saved1)
    ensures Soundly(end, direct, m, sent + sent1, said + said1, answers + [results] + answers1, saved + saved1)
  {
    hide Extends, FinalList, SavedAlong, SavedFrom;
    var last := |sent| - 1;
    assert f.messages == sent[last] + [said[last]];
    assert f.messages[..|f.messages| - 1] == sent[last];
    ChainJoin(sent, said, answers, results, list, sent1, said1, answers1);
    SavedJoin(sent, said, answers, saved, results, sent1, said1, answers1, saved1);
    if end.Suspended? {
      CurrentJoin(m, sent, said, answers, results, list, sent1, said1, answers1, end.frozen.messages);
    }
    if saved1 != [] && saved1[|saved1| - 1].final {
      FinalJoin(end, direct, m, sent, said, answers, results, list, sent1, said1, answers1, saved1[|saved1| - 1].messages);
    }
  }

  /** The batch that list and said end with was suspended, and resumed with the decisions of b to these results. */
  ghost predicate ResumedAt(env: Env, guard: Result -> (string, bool), b: Batch, list: seq<Message>, said: Message, results: seq<Result>) {
    b.frozen.messages == list + [said] && Reconciled(env, b.frozen, b.decisions, guard, b.handled, results)
  }

  ghost predicate DoneAt(envs: nat -> Env, asks: bool, guard: Result -> (string, bool), list: seq<Message>, said: Message, results: seq<Result>,
                         turn: Turn, part: nat, batches: seq<Batch>)
  {
    || WorkedAt(envs(part), turn.iter, asks, list, said, results)
    || exists k: nat :: k < |batches| && ResumedAt(envs(k + 1), guard, batches[k], list, said, results)
  }

  /** Every turn is what the model of its part of the run answered, and every batch whose results the model sees was let
      through by the policy and run, or suspended and resumed with decisions on all that was pending in it. */
  ghost predicate Lived(envs: nat -> Env, asks: bool, guard: Result -> (string, bool), sent: seq<seq<Message>>, said: seq<Message>,
                        answers: seq<seq<Result>>, turns: seq<Turn>, part: seq<nat>, batches: seq<Batch>)
  {
    && |answers| <= |said| == |turns| == |part| <= |sent|
    && (forall i: nat :: i < |said| ==> HeardAt(envs(part[i]), turns[i].iter, sent[i], said[i], turns[i]))
    && (forall i: nat :: i < |answers| ==> DoneAt(envs, asks, guard, sent[i], said[i], answers[i], turns[i], part[i], batches))
  }

  lemma LivedFirst(envs: nat -> Env, asks: bool, guard: Result -> (string, bool), sent: seq<seq<Message>>, said: seq<Message>,
                   answers: seq<seq<Result>>, turns: seq<Turn>) returns (part: seq<nat>)
    requires Faithful(envs(0), 0, asks, sent, said, answers, turns)
    ensures Lived(envs, asks, guard, sent, said, answers, turns, part, [])
  {
    hide WorkedAt, ResumedAt;
    part := seq(|said|, i => 0);
    forall i: nat | i < |said| ensures turns[i].iter == i && HeardAt(envs(0), turns[i].iter, sent[i], said[i], turns[i]) {
      assert HeardAt(envs(0), 0 + i, sent[i], said[i], turns[i]);
    }
    forall i: nat | i < |answers| ensures WorkedAt(envs(0), turns[i].iter, asks, sent[i], said[i], answers[i]) {
      assert WorkedAt(envs(0), 0 + i, asks, sent[i], said[i], answers[i]);
      assert i < |said|;
    }
  }

  lemma AffordsOn(budget: int, turns: seq<Turn>, n: nat, consumed: int, turns1: seq<Turn>, n1: nat)
    requires Affords(budget, 0, turns, n) && |turns| == n + 1 && consumed == TokenSum(turns) && (budget > 0 ==> consumed < budget)
    requires Affords(budget, consumed, turns1, n1)
    ensures Affords(budget, 0, turns + turns1, n + 1 + n1)
  {
    hide TokenSum;
    var all := turns + turns1;
    forall i: nat | i < n + 1 + n1 && budget > 0 ensures 0 + ChargedBy(all, i) < budget {
      if i <= n {
        assert all[..i + 1] == turns[..i + 1];
        assert turns[..n + 1] == turns;
        assert i < n ==> 0 + ChargedBy(turns, i) < budget;
      } else {
        assert all[..i + 1] == turns + turns1[..i - n];
        TokenSumJoin(turns, turns1[..i - n]);
        assert consumed + ChargedBy(turns1, i - n - 1) < budget;
      }
    }
  }

  lemma LivedBroken(envs: nat -> Env, asks: bool, guard: Result -> (string, bool), sent: seq<seq<Message>>, said: seq<Message>,
                    answers: seq<seq<Result>>, turns: seq<Turn>, part: seq<nat>, batches: seq<Batch>, b: Batch, turns1: seq<Turn>)
    requires Lived(envs, asks, guard, sent, said, answers, turns, part, batches) && turns1 == []
    ensures Lived(envs, asks, guard, sent, said, answers, turns, part, batches + [b])
  {
    hide WorkedAt, ResumedAt, HeardAt;
    forall i: nat | i < |answers| ensures DoneAt(envs, asks, guard, sent[i], said[i], answers[i], turns[i], part[i], batches + [b]) {
      DoneStill(envs, asks, guard, sent[i], said[i], answers[i], turns[i], part[i], batches, b);
    }
  }

  lemma DoneStill(envs: nat -> Env, asks: bool, guard: Result -> (string, bool), list: seq<Message>, said: Message, results: seq<Result>,
                  turn: Turn, part: nat, batches: seq<Batch>, b: Batch)
    requires DoneAt(envs, asks, guard, list, said, results, turn, part, batches)
    ensures DoneAt(envs, asks, guard, list, said, results, turn, part, batches + [b])
  {
    hide WorkedAt, ResumedAt;
    if !WorkedAt(envs(part), turn.iter, asks, list, said, results) {
      var k: nat :| k < |batches| && ResumedAt(envs(k + 1), guard, batches[k], list, said, results);
      assert ResumedAt(envs(k + 1), guard, (batches + [b])[k], list, said, results);
    }
  }

  lemma LivedOn(envs: nat -> Env, asks: bool, guard: Result -> (string, bool), sent: seq<seq<Message>>, said: seq<Message>,
                answers: seq<seq<Result>>, turns: seq<Turn>, part: seq<nat>, batches: seq<Batch>, b: Batch, results: seq<Result>,
                sent1: seq<seq<Message>>, said1: seq<Message>, answers1: seq<seq<Result>>, turns1: seq<Turn>) returns (all: seq<nat>)
    requires Lived(envs, asks, guard, sent, said, answers, turns, part, batches) && |sent| == |said| == |answers| + 1
    requires ResumedAt(envs(|batches| + 1), guard, b, sent[|answers|], said[|answers|], results)
    requires Faithful(envs(|batches| + 1), b.frozen.iteration + 1, asks, sent1, said1, answers1, turns1)
    ensures Lived(envs, asks, guard, sent + sent1, said + said1, answers + [results] + answers1, turns + turns1, all, batches + [b])
  {
    hide WorkedAt, ResumedAt, HeardAt, DoneAt;
    var n, m := |said|, |batches| + 1;
    all := part + seq(|said1|, i => m);
    var s, a, r, t := sent + sent1, said + said1, answers + [results] + answers1, turns + turns1;
    forall i: nat | i < |a| ensures HeardAt(envs(all[i]), t[i].iter, s[i], a[i], t[i]) {
      if i >= n {
        HeardIter(envs(m), b.frozen.iteration + 1 + (i - n), sent1[i - n], said1[i - n], turns1[i - n]);
      }
    }
    forall i: nat | i < |r| ensures DoneAt(envs, asks, guard, s[i], a[i], r[i], t[i], all[i], batches + [b]) {
      if i < |answers| {
        DoneStill(envs, asks, guard, sent[i], said[i], answers[i], turns[i], part[i], batches, b);
      } else if i == |answers| {
        DoneByResume(envs, asks, guard, s[i], a[i], r[i], t[i], all[i], batches, b);
      } else {
        HeardIter(envs(m), b.frozen.iteration + 1 + (i - n), sent1[i - n], said1[i - n], turns1[i - n]);
        assert WorkedAt(envs(m), b.frozen.iteration + 1 + (i - n), asks, sent1[i - n], said1[i - n], answers1[i - n]);
        DoneByWork(envs, asks, guard, s[i], a[i], r[i], t[i], all[i], batches + [b]);
      }
    }
  }

  lemma HeardIter(env: Env, iter: int, list: seq<Message>, said: Message, turn: Turn)
    requires HeardAt(env, iter, list, said, turn)
    ensures turn.iter == iter
  {
  }

  lemma DoneByResume(envs: nat -> Env, asks: bool, guard: Result -> (string, bool), list: seq<Message>, said: Message, results: seq<Result>,
                     turn: Turn, part: nat, batches: seq<Batch>, b: Batch)
    requires ResumedAt(envs(|batches| + 1), guard, b, list, said, results)
    ensures DoneAt(envs, asks, guard, list, said, results, turn, part, batches + [b])
  {
    hide WorkedAt, ResumedAt;
    assert (batches + [b])[|batches|] == b;
  }

  lemma DoneByWork(envs: nat -> Env, asks: bool, guard: Result -> (string, bool), list: seq<Message>, said: Message, results: seq<Result>,
                   turn: Turn, part: nat, batches: seq<Batch>)
    requires WorkedAt(envs(part), turn.iter, asks, list, said, results)
    ensures DoneAt(envs, asks, guard, list, said, results, turn, part, batches)
  {
    hide WorkedAt, ResumedAt;
  }

  /** A resumed part of the run joins what was before it. */
  lemma Proceeds(envs: nat -> Env, asks: bool, guard: Result -> (string, bool), p: Params, end: End, direct: set<string>, m: seq<Message>,
                 sent: seq<seq<Message>>, said: seq<Message>, answers: seq<seq<Result>>, saved: seq<Checkpoint>, turns: seq<Turn>,
                 part: seq<nat>, batches: seq<Batch>, before: Frozen, b: Batch, consumed: int, results: seq<Result>, list: seq<Message>,
                 sent1: seq<seq<Message>>, said1: seq<Message>, answers1: seq<seq<Result>>, saved1: seq<Checkpoint>, turns1: seq<Turn>)
    returns (all: seq<nat>)
    requires Lived(envs, asks, guard, sent, said, answers, turns, part, batches)
    requires Soundly(Suspended(before), direct, m, sent, said, answers, saved)
    requires Affords(p.budget, 0, turns, |answers|) && (p.budget > 0 ==> consumed < p.budget) && consumed == TokenSum(turns)
    requires b.frozen.messages == before.messages && Reopens(before.messages, results, list)
    requires Reconciled(envs(|batches| + 1), b.frozen, b.decisions, guard, b.handled, results)
    requires Faithful(envs(|batches| + 1), b.frozen.iteration + 1, asks, sent1, said1, answers1, turns1)
    requires Affords(p.budget, consumed, turns1, |answers1|)
    requires Chained(sent1, said1, answers1) && (sent1 != [] ==> sent1[0] == list) && SavedFrom(sent1, said1, answers1, saved1)
    requires Leaves(end, direct, list, sent1, said1, answers1, saved1) || DirectAtOnce(end, direct, b.frozen.calls, results, sent1, saved1)
    ensures Lived(envs, asks, guard, sent + sent1, said + said1, answers + [results] + answers1, turns + turns1, all, batches + [b])
    ensures Soundly(end, direct, m, sent + sent1, said + said1, answers + [results] + answers1, saved + saved1)
    ensures Affords(p.budget, 0, turns + turns1, |answers + [results] + answers1|)
  {
    hide Affords, Soundly, Chained, SavedFrom, Leaves, DirectAtOnce, Reopens, Reconciled, Faithful;
    LastSent(before, direct, m, sent, said, answers, saved);
    assert |said| == |turns| by { hide HeardAt, DoneAt; }
    hide Lived;
    all := LivedOn(envs, asks, guard, sent, said, answers, turns, part, batches, b, results, sent1, said1, answers1, turns1);
    AffordsOn(p.budget, turns, |answers|, consumed, turns1, |answers1|);
    NextPart(end, direct, m, sent, said, answers, saved, before, b.frozen.calls, results, list, sent1, said1, answers1, saved1);
  }

  /** The list a suspended run was suspended on. */
  lemma LastSent(f: Frozen, direct: set<string>, m: seq<Message>, sent: seq<seq<Message>>, said: seq<Message>,
                 answers: seq<seq<Result>>, saved: seq<Checkpoint>)
    requires Soundly(Suspended(f), direct, m, sent, said, answers, saved)
    ensures |sent| == |said| == |answers| + 1 && f.messages == sent[|answers|] + [said[|answers|]]
  {
    hide Extends, FinalList, SavedAlong;
  }

  /** A whole logical run: a fresh start, then any number of suspensions, supersessions and resumes. Every list the model
      sees and every checkpoint one could resume from is closed, there are at most maxIter turns in all, every token
      charged is a turn's, and the budget is overrun by less than the last turn. */
  method LogicalRun(envs: nat -> Env, p: Params, direct: set<string>, asks: bool, guard: Result -> (string, bool), messages0: seq<Message>)
    returns (end: End, consumed: int, ghost sent: seq<seq<Message>>, ghost saved: seq<Checkpoint>, ghost turns: seq<Turn>, ghost batches: seq<Batch>,
             ghost said: seq<Message>, ghost answers: seq<seq<Result>>, ghost part: seq<nat>)
    requires Closed(messages0)
    ensures AllClosed(sent) && SavedClosed(saved)
    ensures |turns| <= if p.maxIter > 0 then p.maxIter else 0
    ensures consumed == TokenSum(turns)
    ensures end.Suspended? ==> Resumable(end.frozen) && OpenAt(end.frozen) && end.frozen.params == p && end.frozen.consumed == consumed
    ensures end == Stopped(BudgetExhausted) ==> p.budget > 0 && consumed >= p.budget
    ensures p.budget > 0 && turns != [] ==> consumed < p.budget + turns[|turns| - 1].tokens
    ensures BatchesOk(batches)
    ensures |said| == |turns| && Chained(sent, said, answers) && (sent != [] ==> sent[0] == messages0)
    ensures SavedAlong(sent, said, answers, saved)
    ensures Lived(envs, asks, guard, sent, said, answers, turns, part, batches)
    ensures Affords(p.budget, 0, turns, |answers|)
    ensures end.Suspended? ==> |answers| < |said| && Current(messages0, sent, said, answers, end.frozen.messages)
    ensures saved != [] && saved[|saved| - 1].final ==> FinalList(end, direct, messages0, sent, said, answers, saved[|saved| - 1].messages)
  {
    hide Closed, OpenAt, Resumable, Runnable, AllClosed, SavedClosed, TurnsIn, TokenSum, Decided, BatchesOk,
         Policy.PendingSubset, Chained, Current, SavedFrom, SavedAlong, Leaves, Reopens, FinalList, Reconciled,
         DirectAtOnce, Messages, Soundly, Account, EndOk, Lived, Faithful, Affords, EndedBy;
    var tracker := new BudgetTracker(p.budget, 0);
    end, sent, saved, turns, said, answers := RunReactLoop(envs(0), tracker, p, direct, asks, messages0, 0);
    consumed, batches := tracker.consumed, [];
    var resumes: nat := 0;
    part := LivedFirst(envs, asks, guard, sent, said, answers, turns);
    NoBatches();
    FirstPart(end, direct, messages0, sent, said, answers, saved);
    EndMeans(end, p, 0, consumed, turns);
    while end.Suspended?
      invariant Account(p, 0, 0, consumed, sent, saved, turns)
      invariant end.Suspended? ==> Resumable(end.frozen) && OpenAt(end.frozen) && end.frozen.params == p && end.frozen.consumed == consumed
      invariant end == Stopped(BudgetExhausted) ==> p.budget > 0 && consumed >= p.budget
      invariant end.Suspended? ==> turns != [] && turns[|turns| - 1].iter == end.frozen.iteration
      invariant BatchesOk(batches) && resumes == |batches|
      invariant |said| == |turns|
      invariant Soundly(end, direct, messages0, sent, said, answers, saved)
      invariant Lived(envs, asks, guard, sent, said, answers, turns, part, batches)
      invariant Affords(p.budget, 0, turns, |answers|)
      invariant end.Suspended? && p.budget > 0 ==> consumed < p.budget
      decreases if end.Suspended? then p.maxIter - end.frozen.iteration else 0
    {
      AccountMeans(p, 0, consumed, sent, saved, turns);
      LastIn(turns, 0, p.maxIter);
      var f := end.frozen;
      var drifted: bool := *;
      if drifted {
        var pending: seq<string> := *;
        var ok := Policy.ValidatePendingSubset(CallIds(f.calls), pending);
        if ok && |pending| > 0 {
          SupersededIsOpen(f, pending);
          f := Superseded(f, pending);
        }
      }
      var ds: map<string, Interrupt.Decision> := *;
      var missing := exists i :: 0 <= i < |f.pending| && f.pending[i] !in ds;
      if missing {
        break;
      }
      AllThere(f, ds);
      AccountMeans(p, 0, consumed, sent, saved, turns);
      ghost var sent1, saved1, turns1, handled, said1, answers1, reconciled, list;
      ghost var before := end.frozen;
      var after;
      resumes := resumes + 1;
      end, after, handled, sent1, saved1, turns1, said1, answers1, reconciled, list := ResumeFromInterrupt(envs(resumes), f, ds, direct, asks, guard);
      EndMeans(end, p, f.iteration + 1, after, turns1);
      TurnsMean(p, f.iteration + 1, consumed, after, sent1, saved1, turns1);
      AccountsJoin(p, f.iteration, 0, consumed, after, sent, sent1, saved, saved1, turns, turns1);
      AnotherBatch(batches, Batch(f, ds, handled));
      Latest(turns, turns1, f.iteration, p.maxIter);
      if reconciled.Some? {
        part := Proceeds(envs, asks, guard, p, end, direct, messages0, sent, said, answers, saved, turns, part, batches, before, Batch(f, ds, handled),
                         consumed, reconciled.value, list, sent1, said1, answers1, saved1, turns1);
        answers := answers + [reconciled.value] + answers1;
      } else {
        BrokenPart(Suspended(before), direct, messages0, sent, said, answers, saved);
        LivedBroken(envs, asks, guard, sent, said, answers, turns, part, batches, Batch(f, ds, handled), turns1);
        assert sent + sent1 == sent && turns + turns1 == turns && saved + saved1 == saved && said + said1 == said;
      }
      consumed, sent, saved, turns, said := after, sent + sent1, saved + saved1, turns + turns1, said + said1;
      batches := batches + [Batch(f, ds, handled)];
    }
    AccountMeans(p, 0, consumed, sent, saved, turns);
    BoundTurns(turns, p.maxIter);
    Told(end, direct, messages0, sent, said, answers, saved);
  }

  lemma AccountMeans(p: Params, lo: int, consumed: int, sent: seq<seq<Message>>, saved: seq<Checkpoint>, turns: seq<Turn>)
    requires Account(p, lo, 0, consumed, sent, saved, turns)
    ensures AllClosed(sent) && SavedClosed(saved) && TurnsIn(turns, lo, p.maxIter) && consumed == TokenSum(turns)
    ensures p.budget > 0 && turns != [] ==> consumed < p.budget + turns[|turns| - 1].tokens
  {
    hide AllClosed, SavedClosed, TurnsIn, TokenSum;
  }

  lemma TurnsMean(p: Params, lo: int, before: int, after: int, sent: seq<seq<Message>>, saved: seq<Checkpoint>, turns: seq<Turn>)
    requires Account(p, lo, before, after, sent, saved, turns)
    ensures TurnsIn(turns, lo, p.maxIter)
  {
  }

  lemma EndMeans(end: End, p: Params, lo: int, consumed: int, turns: seq<Turn>)
    requires EndOk(end, p, lo, consumed, turns)
    ensures end.Suspended? ==> Resumable(end.frozen) && OpenAt(end.frozen) && end.frozen.params == p && end.frozen.consumed == consumed
    ensures end.Suspended? ==> turns != [] && turns[|turns| - 1].iter == end.frozen.iteration
    ensures end == Stopped(BudgetExhausted) ==> p.budget > 0 && consumed >= p.budget
    ensures end.Suspended? && p.budget > 0 ==> consumed < p.budget
  {
    hide Resumable, OpenAt;
  }

  lemma NoBatches()
    ensures BatchesOk([])
  {
  }

  lemma LastIn(turns: seq<Turn>, lo: int, hi: int)
    requires TurnsIn(turns, lo, hi)
    ensures turns != [] ==> lo <= turns[|turns| - 1].iter < hi
  {
  }

  lemma Latest(turns: seq<Turn>, turns1: seq<Turn>, iter: int, hi: int)
    requires TurnsIn(turns1, iter + 1, hi)
    ensures turns1 != [] ==> (turns + turns1)[|turns + turns1| - 1] == turns1[|turns1| - 1] && iter < turns1[|turns1| - 1].iter < hi
  {
  }

  lemma AllThere(f: Frozen, ds: map<string, Interrupt.Decision>)
    requires forall i :: 0 <= i < |f.pending| ==> f.pending[i] in ds
    ensures Decided(f, ds)
  {
  }

  lemma BoundTurns(turns: seq<Turn>, hi: int)
    requires TurnsIn(turns, 0, hi)
    ensures |turns| <= if hi > 0 then hi else 0
  {
    if hi >= 0 {
      TurnsFit(turns, 0, hi);
    } else if turns != [] {
      LastIn(turns, 0, hi);
    }
  }
}
