/**
 `Execute` and `selectNext` in their own shape: loops over local variables.  The recorded history stands for the
 replies; when it runs out, the workflow is blocked.  Each method is proved against the machine of `Runtime`.
 */
module Execution {
  import opened Model
  import opened Runtime
  import opened OutcomeLaws

  /** How the code for one node, or for one choice, left off. */
  datatype Step = Proceed | Target(id: string) | Broken(error: RunError) | Over | Blocked

  /** Condition `text` was evaluated with answer `holds` at or after position `since`. */
  predicate Evaluated(log: seq<Exchange>, since: nat, text: string, holds: bool) {
    exists k :: since <= k < |log| && log[k].call.Evaluate? && log[k].call.expression == text
      && log[k].reply == Truth(holds)
  }

  /** A matching conditional edge, and no conditional edge of smaller priority matches. */
  ghost predicate BestMatch(edges: seq<Edge>, id: string, log: seq<Exchange>, since: nat, e: Edge) {
    && LeavesBy(edges, e, id) && e.condition != "" && Evaluated(log, since, e.condition, true)
    && forall f | LeavesBy(edges, f, id) && f.condition != "" && f.priority < e.priority ::
       Evaluated(log, since, f.condition, false)
  }

  /** No conditional edge matches, and `e` is an unconditional edge of least priority. */
  ghost predicate BestFallback(edges: seq<Edge>, id: string, log: seq<Exchange>, since: nat, e: Edge) {
    && LeavesBy(edges, e, id) && e.condition == "" && e.target != ""
    && (forall f | LeavesBy(edges, f, id) && f.condition != "" :: Evaluated(log, since, f.condition, false))
    && (forall f | LeavesBy(edges, f, id) && f.condition == "" && f.target != "" :: e.priority <= f.priority)
  }

  ghost predicate Picked(edges: seq<Edge>, id: string, log: seq<Exchange>, since: nat, target: string) {
    exists e: Edge {:trigger LeavesBy(edges, e, id)} ::
      LeavesBy(edges, e, id) && e.target == target
        && (BestMatch(edges, id, log, since, e) || BestFallback(edges, id, log, since, e))
  }

  ghost predicate NothingMatches(edges: seq<Edge>, id: string, log: seq<Exchange>, since: nat) {
    forall f | LeavesBy(edges, f, id) ::
      if f.condition == "" then f.target == "" else Evaluated(log, since, f.condition, false)
  }

  /** The run after the first `n` replies. */
  ghost function After(sorter: seq<Edge> -> seq<Edge>, input: Input, history: seq<Reply>, n: nat): Machine
    requires n <= |history|
  {
    if n == 0 then Begin(sorter, input)
      else Resume(PlanOf(sorter, input), After(sorter, input, history, n - 1), history[n - 1])
  }

  lemma {:induction false} AfterIsReplay(sorter: seq<Edge> -> seq<Edge>, input: Input, history: seq<Reply>, n: nat)
    requires n <= |history|
    ensures After(sorter, input, history, n) == Replay(sorter, input, history[..n])
  {
    if n > 0 {
      AfterIsReplay(sorter, input, history, n - 1);
      assert history[..n][..n - 1] == history[..n - 1];
    }
  }

  /** Once the run has ended, further replies change nothing. */
  lemma EndedAt(sorter: seq<Edge> -> seq<Edge>, input: Input, history: seq<Reply>, n: nat)
    requires n <= |history| && After(sorter, input, history, n).stage.Ended?
    ensures Replay(sorter, input, history) == After(sorter, input, history, n)
  {
    AfterIsReplay(sorter, input, history, n);
    EndedStays(sorter, input, history, n);
  }

  /** The sorted candidates are the edges that leave the node, by priority. */
  lemma SortedCandidates(sorter: seq<Edge> -> seq<Edge>, edges: seq<Edge>, id: string)
    requires IsSorter(sorter)
    ensures var s := sorter(Candidates(edges, |edges|, id));
            ByPriority(s) && forall e :: LeavesBy(edges, e, id) <==> e in s
  {
    var c := Candidates(edges, |edges|, id);
    var s := sorter(c);
    assert SortOf(c, s);
    CandidatesAre(edges, |edges|, id);
    assert edges[..|edges|] == edges;
    forall e ensures e in s <==> e in c {
      assert e in multiset(s) <==> e in multiset(c);
    }
  }

  /** What is known after the first `k` candidates: the conditional ones failed, `first` is the first usable default. */
  ghost predicate Passed(sorted: seq<Edge>, k: nat, log: seq<Exchange>, since: nat, fallback: string, first: nat) {
    && k <= |sorted|
    && (forall j | 0 <= j < k && sorted[j].condition != "" :: Evaluated(log, since, sorted[j].condition, false))
    && (fallback == "" ==> forall j | 0 <= j < k && sorted[j].condition == "" :: sorted[j].target == "")
    && (fallback != "" ==>
          && first < k && sorted[first].condition == "" && sorted[first].target == fallback
          && forall j | 0 <= j < first && sorted[j].condition == "" :: sorted[j].target == "")
  }

  lemma EvaluatedStays(log: seq<Exchange>, x: Exchange, since: nat, text: string, holds: bool)
    requires Evaluated(log, since, text, holds)
    ensures Evaluated(log + [x], since, text, holds)
  {
    var k :| since <= k < |log| && log[k].call.Evaluate? && log[k].call.expression == text
      && log[k].reply == Truth(holds);
    assert (log + [x])[k] == log[k];
  }

  /** An unconditional candidate is passed by. */
  lemma PassDefault(sorted: seq<Edge>, k: nat, log: seq<Exchange>, since: nat, fallback: string, first: nat)
    requires k < |sorted| && sorted[k].condition == "" && Passed(sorted, k, log, since, fallback, first)
    ensures Passed(sorted, k + 1, log, since,
                   if fallback == "" then sorted[k].target else fallback, if fallback == "" then k else first)
  {
  }

  /** A conditional candidate is passed by when its condition fails. */
  lemma PassRefuted(sorted: seq<Edge>, k: nat, log: seq<Exchange>, x: Exchange, since: nat, fallback: string,
                    first: nat)
    requires k < |sorted| && Passed(sorted, k, log, since, fallback, first) && since <= |log|
    requires x.call.Evaluate? && x.call.expression == sorted[k].condition && sorted[k].condition != ""
             && x.reply == Truth(false)
    ensures Passed(sorted, k + 1, log + [x], since, fallback, first)
  {
    assert (log + [x])[|log|] == x;
    forall j | 0 <= j < k && sorted[j].condition != "" ensures Evaluated(log + [x], since, sorted[j].condition, false) {
      EvaluatedStays(log, x, since, sorted[j].condition, false);
    }
  }

  /** The condition of candidate `k` holds, and the conditions of all before it fail. */
  ghost predicate Matched(sorted: seq<Edge>, k: nat, log: seq<Exchange>, since: nat) {
    && k < |sorted| && sorted[k].condition != "" && Evaluated(log, since, sorted[k].condition, true)
    && forall j | 0 <= j < k && sorted[j].condition != "" :: Evaluated(log, since, sorted[j].condition, false)
  }

  lemma PassMatched(sorted: seq<Edge>, k: nat, log: seq<Exchange>, x: Exchange, since: nat, fallback: string,
                    first: nat)
    requires k < |sorted| && Passed(sorted, k, log, since, fallback, first) && since <= |log|
    requires x.call.Evaluate? && x.call.expression == sorted[k].condition && sorted[k].condition != ""
             && x.reply == Truth(true)
    ensures Matched(sorted, k, log + [x], since)
  {
    assert (log + [x])[|log|] == x;
    forall j | 0 <= j < k && sorted[j].condition != "" ensures Evaluated(log + [x], since, sorted[j].condition, false) {
      EvaluatedStays(log, x, since, sorted[j].condition, false);
    }
  }

  lemma MatchIsBest(edges: seq<Edge>, id: string, sorted: seq<Edge>, k: nat, log: seq<Exchange>, since: nat)
    requires ByPriority(sorted) && (forall e :: LeavesBy(edges, e, id) <==> e in sorted)
    requires Matched(sorted, k, log, since)
    ensures Picked(edges, id, log, since, sorted[k].target)
  {
    assert LeavesBy(edges, sorted[k], id) by { assert sorted[k] in sorted; }
    forall f | LeavesBy(edges, f, id) && f.condition != "" && f.priority < sorted[k].priority
      ensures Evaluated(log, since, f.condition, false)
    {
      var j: nat :| j < |sorted| && sorted[j] == f;
      assert forall i: nat | k < i < |sorted| :: InOrder(sorted, k, i) && sorted[k].priority <= sorted[i].priority;
    }
    assert BestMatch(edges, id, log, since, sorted[k]);
  }

  lemma FallbackIsBest(edges: seq<Edge>, id: string, sorted: seq<Edge>, log: seq<Exchange>, since: nat,
                       fallback: string, first: nat)
    requires ByPriority(sorted) && (forall e :: LeavesBy(edges, e, id) <==> e in sorted)
    requires Passed(sorted, |sorted|, log, since, fallback, first)
    ensures fallback != "" ==> Picked(edges, id, log, since, fallback)
    ensures fallback == "" ==> NothingMatches(edges, id, log, since)
  {
    if fallback != "" {
      assert sorted[first] in sorted;
      forall f | LeavesBy(edges, f, id) && f.condition == ""
        && f.target != "" ensures sorted[first].priority <= f.priority
      {
        var j :| 0 <= j < |sorted| && sorted[j] == f;
        if first < j {
          assert InOrder(sorted, first, j);
        }
      }
      assert LeavesBy(edges, sorted[first], id) && BestFallback(edges, id, log, since, sorted[first]);
    }
  }

  lemma ScanUnfolds(plan: Plan, m: Memory, sorted: seq<Edge>, k: nat, fallback: string)
    requires k < |sorted|
    ensures Scan(plan, m, sorted[k..], fallback) ==
            var edge := sorted[k];
            if edge.condition == "" then
              Scan(plan, m, sorted[k + 1..], if fallback == "" then edge.target else fallback)
            else Machine(m, Asking(Evaluate(edge.condition, m.lastOutput), Evaluating(edge, sorted[k + 1..], fallback)))
  {
    assert sorted[k..][0] == sorted[k] && sorted[k..][1..] == sorted[k + 1..];
  }

  /** The machine after the replies used so far stands where the code for a node left off. */
  ghost predicate LeftOff(sorter: seq<Edge> -> seq<Edge>, input: Input, history: seq<Reply>, r: Step, m: Memory,
                          at: nat)
  {
    at <= |history| &&
    var machine := After(sorter, input, history, at);
    match r
    case Proceed => machine == Choose(PlanOf(sorter, input), m)
    case Target(id) => machine == Follow(PlanOf(sorter, input), m, id)
    case Broken(error) => machine == Fail(m, error)
    case Over => machine == Machine(m, Ended(Returned(m.status, m.lastOutput)))
    case Blocked => at == |history| && machine.stage.Asking? && machine.memory.log == m.log
  }

  method CollectCandidates(edges: seq<Edge>, id: string) returns (candidates: seq<Edge>)
    ensures candidates == Candidates(edges, |edges|, id)
  {
    candidates := [];
    for i := 0 to |edges|
      invariant candidates == Candidates(edges, i, id)
    {
      if edges[i].source == id {
        candidates := candidates + [edges[i]];
      } else {
        assert candidates + [] == candidates;
      }
    }
  }

  /** Evaluates the condition of one candidate, with the exchange made for it. */
  method TryCondition(sorter: seq<Edge> -> seq<Edge>, ghost input: Input, m0: Memory, history: seq<Reply>, at0: nat,
                      edge: Edge, ghost rest: seq<Edge>, ghost fallback: string)
    returns (r: Step, m: Memory, at: nat, ghost x: Exchange)
    requires at0 <= |history|
    requires After(sorter, input, history, at0)
             == Machine(m0, Asking(Evaluate(edge.condition, m0.lastOutput), Evaluating(edge, rest, fallback)))
    ensures at0 <= at <= |history| && m0.log <= m.log && m == m0.(log := m.log)
    ensures x.call == Evaluate(edge.condition, m0.lastOutput)
    ensures match r
            case Proceed =>
              && x.reply == Truth(false) && m.log == m0.log + [x]
              && After(sorter, input, history, at) == Scan(PlanOf(sorter, input), m, rest, fallback)
            case Target(id) =>
              x.reply == Truth(true) && m.log == m0.log + [x] && id == edge.target
                && LeftOff(sorter, input, history, r, m, at)
            case Broken(error) =>
              error == ConditionFailed && at > at0 && !history[at - 1].Truth?
                && LeftOff(sorter, input, history, r, m, at)
            case Blocked => LeftOff(sorter, input, history, r, m, at)
            case Over => false
  {
    var reply;
    reply, m, at := Get(sorter, input, m0, history, at0, Evaluate(edge.condition, m0.lastOutput),
                        Evaluating(edge, rest, fallback));
    x := Exchange(Evaluate(edge.condition, m0.lastOutput), if reply.Some? then reply.value else TimedOut);
    r := if reply.None? then Blocked
         else if !reply.value.Truth? then Broken(ConditionFailed)
         else if reply.value.holds then Target(edge.target)
         else Proceed;
  }

  /** Where the loop of `selectNext` stands before candidate `k`. */
  ghost predicate Scanning(sorter: seq<Edge> -> seq<Edge>, input: Input, history: seq<Reply>, sorted: seq<Edge>, k: nat,
                           m: Memory, at: nat, since: nat, fallback: string, first: nat)
  {
    && at <= |history| && since <= |m.log| && Passed(sorted, k, m.log, since, fallback, first)
    && After(sorter, input, history, at) == Scan(PlanOf(sorter, input), m, sorted[k..], fallback)
  }

  /** How the loop ends: at the matching candidate `k`, with the default `first`, or with an error or no reply. */
  ghost predicate Settled(sorter: seq<Edge> -> seq<Edge>, input: Input, history: seq<Reply>, sorted: seq<Edge>, k: nat,
                          r: Step, m: Memory, at0: nat, at: nat, since: nat, first: nat)
  {
    && at0 <= at && LeftOff(sorter, input, history, r, m, at)
    && match r
       case Target(id) =>
         (Matched(sorted, k, m.log, since) && id == sorted[k].target)
         || (id != "" && Passed(sorted, |sorted|, m.log, since, id, first))
       case Broken(error) =>
         (error == NoMatchingEdge && Passed(sorted, |sorted|, m.log, since, "", first))
         || (error == ConditionFailed && at > at0 && !history[at - 1].Truth?)
       case _ => r.Blocked?
  }

  /** One round of the loop of `selectNext`: the candidate at position `k`. */
  method Consider(sorter: seq<Edge> -> seq<Edge>, ghost input: Input, m0: Memory, history: seq<Reply>, at0: nat,
                  sorted: seq<Edge>, k: nat, fallback0: string, ghost since: nat, ghost first0: nat)
    returns (r: Step, m: Memory, at: nat, fallback: string, ghost first: nat)
    requires k < |sorted| && Scanning(sorter, input, history, sorted, k, m0, at0, since, fallback0, first0)
    ensures at0 <= at <= |history| && m0.log <= m.log && m == m0.(log := m.log)
    ensures if r.Proceed? then Scanning(sorter, input, history, sorted, k + 1, m, at, since, fallback, first)
            else Settled(sorter, input, history, sorted, k, r, m, at0, at, since, first)
  {
    var edge := sorted[k];
    ScanUnfolds(PlanOf(sorter, input), m0, sorted, k, fallback0);
    r, m, at, fallback, first := Proceed, m0, at0, fallback0, first0;
    if edge.condition == "" {
      PassDefault(sorted, k, m.log, since, fallback, first);
      if fallback == "" {
        fallback := edge.target;
        first := k;
      }
    } else {
      ghost var x;
      r, m, at, x := TryCondition(sorter, input, m0, history, at0, edge, sorted[k + 1..], fallback);
      if r.Target? {
        PassMatched(sorted, k, m0.log, x, since, fallback, first);
      } else if r.Proceed? {
        PassRefuted(sorted, k, m0.log, x, since, fallback, first);
      }
    }
  }

  lemma ScanBegins(sorter: seq<Edge> -> seq<Edge>, input: Input, history: seq<Reply>, sorted: seq<Edge>, m: Memory,
                   at: nat)
    requires at <= |history| && After(sorter, input, history, at) == Scan(PlanOf(sorter, input), m, sorted, "")
    ensures Scanning(sorter, input, history, sorted, 0, m, at, |m.log|, "", 0)
  {
    assert sorted[0..] == sorted;
  }

  /** After the last candidate the default is taken, if there is one. */
  lemma ScanEnds(sorter: seq<Edge> -> seq<Edge>, input: Input, history: seq<Reply>, sorted: seq<Edge>, m: Memory,
                 at0: nat, at: nat, since: nat, fallback: string, first: nat)
    requires at0 <= at && Scanning(sorter, input, history, sorted, |sorted|, m, at, since, fallback, first)
    ensures Settled(sorter, input, history, sorted, |sorted|,
                    if fallback != "" then Target(fallback) else Broken(NoMatchingEdge), m, at0, at, since, first)
  {
  }

  /** The loop of `selectNext` over the sorted candidates, which left off at candidate `k` or after the last one. */
  method ScanSorted(sorter: seq<Edge> -> seq<Edge>, ghost input: Input, m0: Memory, history: seq<Reply>, at0: nat,
                    sorted: seq<Edge>)
    returns (r: Step, m: Memory, at: nat, ghost k: nat, ghost first: nat)
    requires at0 <= |history| && After(sorter, input, history, at0) == Scan(PlanOf(sorter, input), m0, sorted, "")
    ensures m0.log <= m.log && m == m0.(log := m.log)
    ensures Settled(sorter, input, history, sorted, k, r, m, at0, at, |m0.log|, first)
  {
    ScanBegins(sorter, input, history, sorted, m0, at0);
    var fallback := "";
    m, at, first := m0, at0, 0;
    for i := 0 to |sorted|
      invariant at0 <= at && m0.log <= m.log && m == m0.(log := m.log)
      invariant Scanning(sorter, input, history, sorted, i, m, at, |m0.log|, fallback, first)
    {
      r, m, at, fallback, first := Consider(sorter, input, m, history, at, sorted, i, fallback, |m0.log|, first);
      k := i;
      if !r.Proceed? {
        return;
      }
    }
    k := |sorted|;
    ScanEnds(sorter, input, history, sorted, m, at0, at, |m0.log|, fallback, first);
    r := if fallback != "" then Target(fallback) else Broken(NoMatchingEdge);
  }

  /**
   `selectNext`: a matching conditional edge of least priority, else an unconditional edge of least priority, in
   both cases up to ties; and no edge exactly when neither exists.
   */
  method SelectNext(sorter: seq<Edge> -> seq<Edge>, ghost input: Input, edges: seq<Edge>, m0: Memory,
                    history: seq<Reply>, at0: nat)
    returns (r: Step, m: Memory, at: nat)
    requires IsSorter(sorter) && edges == input.edges && at0 <= |history|
    requires After(sorter, input, history, at0) == Choose(PlanOf(sorter, input), m0)
    ensures at0 <= at && m0.log <= m.log && m == m0.(log := m.log)
    ensures LeftOff(sorter, input, history, r, m, at)
    ensures r.Target? || r.Broken? || r.Blocked?
    ensures r.Target? ==> Picked(edges, m0.current.id, m.log, |m0.log|, r.id)
    ensures r.Broken? ==> r.error in {NoMatchingEdge, ConditionFailed}
    ensures r == Broken(NoMatchingEdge) ==> NothingMatches(edges, m0.current.id, m.log, |m0.log|)
    ensures r == Broken(ConditionFailed) ==> at > at0 && !history[at - 1].Truth?
  {
    var candidates := CollectCandidates(edges, m0.current.id);
    SortedCandidates(sorter, edges, m0.current.id);
    var sorted := sorter(candidates);
    ghost var k, first;
    r, m, at, k, first := ScanSorted(sorter, input, m0, history, at0, sorted);
    if r.Target? {
      if Matched(sorted, k, m.log, |m0.log|) && r.id == sorted[k].target {
        MatchIsBest(edges, m0.current.id, sorted, k, m.log, |m0.log|);
      } else {
        FallbackIsBest(edges, m0.current.id, sorted, m.log, |m0.log|, r.id, first);
      }
    } else if r == Broken(NoMatchingEdge) {
      FallbackIsBest(edges, m0.current.id, sorted, m.log, |m0.log|, "", first);
    }
  }

  /** Waits for the reply to `call`: the next one of the history, or none if the history ends here. */
  method Get(sorter: seq<Edge> -> seq<Edge>, ghost input: Input, m0: Memory, history: seq<Reply>, at0: nat, call: Call,
             ghost place: Place)
    returns (reply: Option<Reply>, m: Memory, at: nat)
    requires at0 <= |history| && After(sorter, input, history, at0) == Machine(m0, Asking(call, place))
    ensures at0 <= at <= |history| && m0.log <= m.log && m == m0.(log := m.log)
    ensures reply.None? ==> m == m0 && LeftOff(sorter, input, history, Blocked, m, at)
    ensures reply.Some? ==>
              && at == at0 + 1 <= |history| && m == m0.(log := m0.log + [Exchange(call, reply.value)])
                 && reply.value == history[at0]
              && After(sorter, input, history, at)
                 == Resume(PlanOf(sorter, input), Machine(m0, Asking(call, place)), reply.value)
  {
    m, at := m0, at0;
    if at == |history| {
      return None, m, at;
    }
    reply := Some(history[at]);
    m, at := m.(log := m.log + [Exchange(call, history[at])]), at + 1;
  }

  /** `finish`, where a failure becomes the error of the run. */
  method FinishRun(sorter: seq<Edge> -> seq<Edge>, ghost input: Input, m0: Memory, history: seq<Reply>, at0: nat)
    returns (r: Step, m: Memory, at: nat)
    requires at0 <= |history| && After(sorter, input, history, at0) == AskFinish(m0)
    ensures LeftOff(sorter, input, history, r, m, at) && m == m0.(log := m.log)
    ensures r.Over? || r.Broken? || r.Blocked?
    ensures r.Over? ==> m.log == m0.log + [Exchange(Finish(m0.status, m0.lastOutput, None), Done)]
  {
    var reply;
    reply, m, at := Get(sorter, input, m0, history, at0, Finish(m0.status, m0.lastOutput, None), Finishing);
    r := if reply.None? then Blocked else if reply.value == Done then Over else Broken(FinishFailed);
  }

  /** The exchange takes a decision for the node, and `output` is the output that came with it. */
  predicate IsDecision(x: Exchange, node: Node, decision: Decision, output: string) {
    && x.call == AwaitDecision(node) && x.reply.Received? && x.reply.signal.nodeId == node.id
    && x.reply.signal.decision == decision
    && output == (if x.reply.signal.output == "" then "{}" else x.reply.signal.output)
  }

  /**
   The wait for an approval: signals are taken one by one, and only one that names this node ends the wait.  The run
   goes on only from an approval, and finishes here only as rejected, each time with the output of that signal.
   */
  method AwaitApproval(sorter: seq<Edge> -> seq<Edge>, ghost input: Input, m0: Memory, history: seq<Reply>, at0: nat)
    returns (r: Step, m: Memory, at: nat)
    requires at0 <= |history|
    requires After(sorter, input, history, at0) == Machine(m0, Asking(AwaitDecision(m0.current), Awaiting))
    ensures LeftOff(sorter, input, history, r, m, at) && m.visited == m0.visited
    ensures r.Proceed? || r.Over? || r.Broken? || r.Blocked?
    ensures r.Proceed? ==>
              m.log != [] && IsDecision(m.log[|m.log| - 1], m0.current, Approve, m.lastOutput) && m.status == m0.status
    ensures r.Over? ==>
              |m.log| > 1 && IsDecision(m.log[|m.log| - 2], m0.current, Reject, m.lastOutput) && m.status == Rejected
  {
    m, at := m0, at0;
    while true
      invariant at0 <= at <= |history|
      invariant After(sorter, input, history, at) == Machine(m, Asking(AwaitDecision(m.current), Awaiting))
                && m == m0.(log := m.log)
      decreases |history| - at
    {
      var reply;
      reply, m, at := Get(sorter, input, m, history, at, AwaitDecision(m.current), Awaiting);
      if reply.None? {
        return Blocked, m, at;
      } else if reply.value == TimedOut {
        return Broken(ApprovalTimeout), m, at;
      } else if !reply.value.Received? {
        return Broken(WaitFailed(m.current.id)), m, at;
      } else if reply.value.signal.nodeId == m.current.id {
        var signal := reply.value.signal;
        m := m.(lastOutput := DefaultJson(signal.output));
        if signal.decision == Reject {
          m := m.(status := Rejected);
          r, m, at := FinishRun(sorter, input, m, history, at);
        } else if signal.decision != Approve {
          r := Broken(InvalidDecision);
        } else {
          r := Proceed;
        }
        return;
      }
    }
  }

  /** The switch over the type of the current node. */
  method RunNode(sorter: seq<Edge> -> seq<Edge>, ghost input: Input, m0: Memory, history: seq<Reply>, at0: nat)
    returns (r: Step, m: Memory, at: nat)
    requires at0 <= |history|
    requires After(sorter, input, history, at0) == AtNode(PlanOf(sorter, input), m0)
    ensures LeftOff(sorter, input, history, r, m, at) && m.visited == m0.visited
    ensures r.Proceed? || r.Over? || r.Broken? || r.Blocked?
  {
    m, at := m0, at0;
    var reply;
    match m.current.kind {
      case Start =>
        r := Proceed;
      case Approval =>
        reply, m, at := Get(sorter, input, m, history, at, CreateTask(m.current), Creating);
        if reply.None? {
          r := Blocked;
        } else if reply.value != Done {
          r := Broken(TaskNotCreated(m.current.id));
        } else {
          r, m, at := AwaitApproval(sorter, input, m, history, at);
        }
      case ServiceTask =>
        reply, m, at := Get(sorter, input, m, history, at, Invoke(m.current), Invoking);
        if reply.None? {
          r := Blocked;
        } else if !reply.value.Output? {
          r := Broken(InvokeFailed(m.current.id));
        } else {
          m := m.(lastOutput := DefaultJson(reply.value.json), completed := m.completed + [m.current]);
          r := Proceed;
        }
      case Timer =>
        reply, m, at := Get(sorter, input, m, history, at, Sleep(m.current), Sleeping);
        r := if reply.None? then Blocked else if reply.value == Done then Proceed
          else Broken(TimerFailed(m.current.id));
      case End =>
        r, m, at := FinishRun(sorter, input, m, history, at);
      case OtherType(_) =>
        r := Broken(InvalidNode);
    }
  }

  /** One round of the deferred loop: the last one of the services that are `left`. */
  method CompensateLast(sorter: seq<Edge> -> seq<Edge>, ghost input: Input, m0: Memory, history: seq<Reply>, at0: nat,
                        service: Node, ghost left: seq<Node>, ghost error: RunError)
    returns (done: bool, m: Memory, at: nat)
    requires at0 <= |history| && After(sorter, input, history, at0) == Undo(m0, left + [service], error)
    ensures at <= |history|
    ensures done ==> After(sorter, input, history, at) == Undo(m, left, error) && m == m0.(log := m.log)
    ensures !done ==> LeftOff(sorter, input, history, Blocked, m, at)
  {
    assert (left + [service])[..|left|] == left;
    m, at, done := m0, at0, true;
    if service.compensationMethod != "" {
      var reply;
      reply, m, at := Get(sorter, input, m, history, at, Compensate(service), Compensating(left, error));
      done := reply.Some?;
    }
  }

  method ReportFailure(sorter: seq<Edge> -> seq<Edge>, ghost input: Input, m0: Memory, history: seq<Reply>, at0: nat,
                       error: RunError)
    returns (done: bool, m: Memory, at: nat)
    requires at0 <= |history| && After(sorter, input, history, at0) == Undo(m0, [], error)
    ensures at <= |history|
    ensures done ==> After(sorter, input, history, at) == Machine(m, Ended(Raised(error)))
    ensures !done ==> LeftOff(sorter, input, history, Blocked, m, at)
  {
    var reply;
    reply, m, at := Get(sorter, input, m0, history, at0, Finish(Failed, m0.lastOutput, Some(error)), Reporting(error));
    done := reply.Some?;
  }

  /** The deferred function: compensation in reverse order, each failure ignored, then the report of the failure. */
  method Compensation(sorter: seq<Edge> -> seq<Edge>, ghost input: Input, m0: Memory, history: seq<Reply>, at0: nat,
                      error: RunError)
    returns (done: bool, m: Memory, at: nat)
    requires at0 <= |history| && After(sorter, input, history, at0) == Fail(m0, error)
    ensures at <= |history|
    ensures done ==> After(sorter, input, history, at) == Machine(m, Ended(Raised(error)))
    ensures !done ==> LeftOff(sorter, input, history, Blocked, m, at)
  {
    m, at := m0, at0;
    var services := m.completed;
    var index := |services|;
    assert services[..index] == services;
    while index > 0
      invariant 0 <= index <= |services| && at <= |history|
      invariant After(sorter, input, history, at) == Undo(m, services[..index], error)
    {
      index := index - 1;
      assert services[..index + 1] == services[..index] + [services[index]];
      done, m, at := CompensateLast(sorter, input, m, history, at, services[index], services[..index], error);
      if !done {
        return;
      }
    }
    assert services[..0] == [];
    done, m, at := ReportFailure(sorter, input, m, history, at, error);
  }

  /**
   The node index and the start node; of several nodes with one identifier, or several start nodes, the last counts.
   */
  method IndexInput(input: Input) returns (nodes: map<string, Node>, start: Option<Node>)
    ensures nodes == Index(input.nodes) && start == LastStart(input.nodes)
  {
    nodes, start := map[], None;
    for i := 0 to |input.nodes|
      invariant nodes == Index(input.nodes[..i]) && start == LastStart(input.nodes[..i])
    {
      var node := input.nodes[i];
      assert input.nodes[..i + 1][..i] == input.nodes[..i];
      nodes := nodes[node.id := node];
      if node.kind == Start {
        start := Some(node);
      }
    }
    assert input.nodes[..|input.nodes|] == input.nodes;
  }

  /** The loop over nodes, up to an error, the end, or a wait without a reply. */
  method RunNodes(sorter: seq<Edge> -> seq<Edge>, input: Input, nodes: map<string, Node>, start: Node,
                  history: seq<Reply>)
    returns (r: Step, m: Memory, at: nat)
    requires IsSorter(sorter) && nodes == Index(input.nodes)
    requires Begin(sorter, input) == Enter(PlanOf(sorter, input), Blank(start), start)
    ensures LeftOff(sorter, input, history, r, m, at)
    ensures r.Over? || r.Broken? || r.Blocked?
  {
    m, at := Blank(start), 0;
    var current := start;
    var steps := 0;
    while steps <= |nodes|
      invariant at <= |history| && steps == |m.visited| <= |nodes| + 1
      invariant After(sorter, input, history, at) == Enter(PlanOf(sorter, input), m, current)
    {
      m := m.(current := current, visited := m.visited + [current]);
      r, m, at := RunNode(sorter, input, m, history, at);
      if !r.Proceed? {
        return;
      }
      r, m, at := SelectNext(sorter, input, input.edges, m, history, at);
      if !r.Target? {
        return;
      }
      if r.id !in nodes {
        return Broken(InvalidEdge), m, at;
      }
      current := nodes[r.id];
      steps := steps + 1;
    }
    r := Broken(InvalidGraph);
  }

  /** `Execute`, replayed over a recorded history: the outcome, if there is one yet, and the exchanges made. */
  method Execute(sorter: seq<Edge> -> seq<Edge>, input: Input, history: seq<Reply>)
    returns (outcome: Option<Outcome>, log: seq<Exchange>)
    requires IsSorter(sorter)
    ensures var machine := Replay(sorter, input, history);
            && log == machine.memory.log
            && outcome == if machine.stage.Ended? then Some(machine.stage.outcome) else None
    ensures forall i {:trigger log[i]} | 0 <= i < |log| && log[i].call.Evaluate? ::
              log[i].call.lastOutput == LastOutput(log[..i])
    ensures outcome.Some? && outcome.value.Returned? ==> outcome.value.result == LastOutput(log)
  {
    OutputLaw(sorter, input, history);
    AfterIsReplay(sorter, input, history, |history|);
    assert history[..|history|] == history;
    if Begin(sorter, input).stage.Ended? {
      EndedAt(sorter, input, history, 0);
    }
    if input.instanceId == "" || input.tenantId == "" || input.applicationId == "" {
      return Some(Raised(InvalidWorkflow)), [];
    }
    var nodes, start := IndexInput(input);
    if start.None? || start.value.id == "" {
      return Some(Raised(InvalidWorkflow)), [];
    }
    var r, m, at := RunNodes(sorter, input, nodes, start.value, history);
    if r.Over? {
      EndedAt(sorter, input, history, at);
      return Some(Returned(m.status, m.lastOutput)), m.log;
    }
    if r.Blocked? {
      return None, m.log;
    }
    var error := r.error;
    var done;
    done, m, at := Compensation(sorter, input, m, history, at, error);
    if done {
      EndedAt(sorter, input, history, at);
      return Some(Raised(error)), m.log;
    }
    return None, m.log;
  }
}
