/** Reading a run back from its recorded history: which call was pending when a reply came, and what it implies. */
module Histories {
  import opened Model
  import opened Graph
  import opened Runtime
  import opened RuntimeLaws

  /** What fixes a run: the sort used by the program and the input. */
  datatype Origin = Origin(sorter: seq<Edge> -> seq<Edge>, input: Input)

  /** The run after the first `k` replies. */
  function Moment(o: Origin, history: seq<Reply>, k: nat): Machine
    requires k <= |history|
  {
    Replay(o.sorter, o.input, history[..k])
  }

  function LogAt(o: Origin, history: seq<Reply>, k: nat): seq<Exchange>
    requires k <= |history|
  {
    Moment(o, history, k).memory.log
  }

  /** After `k` replies the run waits for `call`. */
  predicate Asked(o: Origin, history: seq<Reply>, k: nat, call: Call) {
    k <= |history| && Moment(o, history, k).stage.Asking? && Moment(o, history, k).stage.call == call
  }

  /** The pending call `call` got the reply at position `k`. */
  predicate Answered(o: Origin, history: seq<Reply>, k: nat, call: Call, reply: Reply) {
    k < |history| && Asked(o, history, k, call) && history[k] == reply
  }

  /** One more reply adds one exchange, unless the run has ended. */
  lemma LogStep(o: Origin, history: seq<Reply>, k: nat)
    requires k < |history|
    ensures var before := Moment(o, history, k);
            LogAt(o, history, k + 1)
            == before.memory.log + (if before.stage.Asking? then [Exchange(before.stage.call, history[k])] else [])
  {
    assert history[..k + 1][..k] == history[..k];
  }

  lemma {:induction false} LogGrows(o: Origin, history: seq<Reply>, j: nat, k: nat)
    requires j <= k <= |history|
    ensures LogAt(o, history, j) <= LogAt(o, history, k)
    decreases k
  {
    if j < k {
      LogGrows(o, history, j, k - 1);
      LogStep(o, history, k - 1);
    }
  }

  lemma BeginsBlank(o: Origin)
    ensures Replay(o.sorter, o.input, []).memory.log == []
  {
  }

  /** Every exchange in the log is a call that was pending and the reply it got. */
  lemma {:induction false} ExchangeHappened(o: Origin, history: seq<Reply>, k: nat, i: nat) returns (j: nat)
    requires k <= |history| && i < |LogAt(o, history, k)|
    ensures j < k && Answered(o, history, j, LogAt(o, history, k)[i].call, LogAt(o, history, k)[i].reply)
    decreases k
  {
    if k == 0 {
      assert history[..0] == [];
      BeginsBlank(o);
    } else {
      LogStep(o, history, k - 1);
      if i < |LogAt(o, history, k - 1)| {
        j := ExchangeHappened(o, history, k - 1, i);
      } else {
        j := k - 1;
      }
    }
  }

  /** A call that was answered is in every later log. */
  lemma AnsweredIsLogged(o: Origin, history: seq<Reply>, p: nat, k: nat, call: Call) returns (i: nat)
    requires p < k <= |history| && Asked(o, history, p, call)
    ensures i < |LogAt(o, history, k)| && LogAt(o, history, k)[i] == Exchange(call, history[p])
  {
    LogStep(o, history, p);
    LogGrows(o, history, p + 1, k);
    i := |LogAt(o, history, p)|;
  }

  // ---------- approvals ----------

  lemma {:induction false} ApprovalIsListed(visited: seq<Node>, n: Node)
    requires n in Workload(visited) && n.kind == Approval
    ensures n.id in Approvals(visited)
  {
    var front, last := visited[..|visited| - 1], visited[|visited| - 1];
    if n in Workload(front) {
      ApprovalIsListed(front, n);
    }
  }

  lemma {:induction false} ApprovalsOnce(visited: seq<Node>)
    requires Distinct(Ids(visited))
    ensures Distinct(Approvals(visited)) && forall id | id in Approvals(visited) :: id in Ids(visited)
  {
    if visited != [] {
      var front, last := visited[..|visited| - 1], visited[|visited| - 1];
      var ids := Ids(visited);
      assert Ids(front) == ids[..|ids| - 1];
      DistinctFront(ids);
      ApprovalsOnce(front);
      if last.kind == Approval {
        assert last.id !in Ids(front) by {
          forall k | 0 <= k < |front| ensures Ids(front)[k] != last.id {
            assert Differ(ids, k, |front|);
          }
        }
        DistinctAppend(Approvals(front), last.id);
      } else {
        assert Approvals(front) + [] == Approvals(front);
      }
    }
  }

  lemma {:induction false} ConsumedIndex(log: seq<Exchange>, signal: Signal) returns (i: nat)
    requires signal in Consumed(log)
    ensures i < |log| && TakesSignal(log[i]) && log[i].reply.signal == signal
  {
    i := |log| - 1;
    if !(TakesSignal(log[i]) && log[i].reply.signal == signal) {
      i := ConsumedIndex(log[..i], signal);
    }
  }

  lemma {:induction false} ConsumedGrows(log: seq<Exchange>, more: seq<Exchange>)
    requires log <= more
    ensures Consumed(log) <= Consumed(more)
  {
    if |log| == |more| {
      assert log == more;
    } else {
      ConsumedGrows(log, more[..|more| - 1]);
    }
  }

  /** A consumed signal came as the reply to the wait of its own node. */
  lemma ConsumedHappened(o: Origin, history: seq<Reply>, k: nat, signal: Signal) returns (j: nat, node: Node)
    requires k <= |history| && signal in Consumed(LogAt(o, history, k))
    ensures j < k && Answered(o, history, j, AwaitDecision(node), Received(signal)) && node.id == signal.nodeId
  {
    var i := ConsumedIndex(LogAt(o, history, k), signal);
    j := ExchangeHappened(o, history, k, i);
    node := LogAt(o, history, k)[i].call.node;
  }

  /** A wait is entered only from the accepted creation of its own task, or kept by a signal for another node. */
  lemma WaitComesFrom(plan: Plan, machine: Machine, reply: Reply)
    requires Resume(plan, machine, reply).stage.Asking? && Resume(plan, machine, reply).stage.place.Awaiting?
             && Sound(machine)
    ensures machine.stage.Asking?
    ensures var call := Resume(plan, machine, reply).stage.call;
            && call.AwaitDecision?
            && ((machine.stage.call == CreateTask(call.node) && reply == Done)
                || (machine.stage.call == call && machine.stage.place.Awaiting?))
  {
  }

  /** A run that waits for the decision of a node has had the creation of its task accepted. */
  lemma {:induction false} CreatedBeforeWait(o: Origin, history: seq<Reply>, k: nat, node: Node) returns (j: nat)
    requires Asked(o, history, k, AwaitDecision(node))
    ensures j < k && Answered(o, history, j, CreateTask(node), Done)
    decreases k
  {
    ReplayIsSound(o.sorter, o.input, history[..k]);
    assert history[..0] == [];
    if k == 0 {
      BeginsElsewhere(o);
    } else {
      assert history[..k][..k - 1] == history[..k - 1];
      ReplayIsSound(o.sorter, o.input, history[..k - 1]);
      WaitComesFrom(PlanOf(o.sorter, o.input), Moment(o, history, k - 1), history[k - 1]);
      j := k - 1;
      if Moment(o, history, j).stage.call == AwaitDecision(node) {
        j := CreatedBeforeWait(o, history, k - 1, node);
      }
    }
  }

  lemma BeginsElsewhere(o: Origin)
    ensures var stage := Replay(o.sorter, o.input, []).stage; stage.Asking? ==>
            !stage.place.Awaiting? && !stage.call.AwaitDecision?
  {
    ReplayIsSound(o.sorter, o.input, []);
  }

  lemma CreatedForApproval(o: Origin, history: seq<Reply>, p: nat, n: Node)
    requires Asked(o, history, p, CreateTask(n))
    ensures n.kind == Approval
  {
    ReplayIsSound(o.sorter, o.input, history[..p]);
  }

  /** On an accepted graph a task is asked for an approval node of the input. */
  lemma CreatedForInput(isJson: string -> bool, o: Origin, history: seq<Reply>, p: nat, n: Node)
    requires ValidInput(isJson, o.input) && IsSorter(o.sorter) && Asked(o, history, p, CreateTask(n))
    ensures n in o.input.nodes && n.kind == Approval
  {
    CreatedForApproval(o, history, p, n);
    ReplayIsSound(o.sorter, o.input, history[..p]);
    var start := ReplayOnTrack(isJson, o.sorter, o.input, history[..p]);
    IndexFacts(o.input.nodes);
    assert Moment(o, history, p).memory.current == n;
  }

  /** While the run waits for the decision of `node`, every other task it has asked for is decided and consumed. */
  lemma OthersAreConsumed(o: Origin, history: seq<Reply>, p: nat, k: nat, other: Node, node: Node)
    requires p < k && Asked(o, history, p, CreateTask(other)) && Asked(o, history, k, AwaitDecision(node))
    ensures other.id == node.id || other.id in NodeIds(Consumed(LogAt(o, history, k)))
  {
    CreatedForApproval(o, history, p, other);
    var i := AnsweredIsLogged(o, history, p, k, CreateTask(other));
    var m := Moment(o, history, k).memory;
    var q := RequestAt(m.log, i);
    ReplayIsSound(o.sorter, o.input, history[..k]);
    assert other == Workload(m.visited)[q];
    ApprovalIsListed(m.visited, other);
    assert other.id in NodeIds(Consumed(m.log)) + [node.id];
  }

  /** On an accepted graph a node whose signal was consumed is never waited for again. */
  lemma WaitedOnce(isJson: string -> bool, o: Origin, history: seq<Reply>, k: nat, q: nat, id: string, node: Node)
    requires ValidInput(isJson, o.input) && IsSorter(o.sorter) && k <= q
    requires Asked(o, history, q, AwaitDecision(node)) && id in NodeIds(Consumed(LogAt(o, history, k)))
    ensures node.id != id
  {
    var m := Moment(o, history, q).memory;
    ReplayIsSound(o.sorter, o.input, history[..q]);
    PathLaw(isJson, o.sorter, o.input, history[..q]);
    ApprovalsOnce(m.visited);
    LogGrows(o, history, k, q);
    ConsumedGrows(LogAt(o, history, k), m.log);
    ListedOnce(Consumed(LogAt(o, history, k)), Consumed(m.log), Approvals(m.visited), id, node.id);
  }

  lemma ListedOnce(early: seq<Signal>, all: seq<Signal>, approvals: seq<string>, id: string, next: string)
    requires early <= all && NodeIds(all) + [next] == approvals && Distinct(approvals) && id in NodeIds(early)
    ensures id != next
  {
    var i :| 0 <= i < |early| && early[i].nodeId == id;
    assert all[i] == early[i];
    assert NodeIds(all)[i] == id && approvals[i] == id;
    assert Differ(approvals, i, |all|);
  }

  /** A service is asked for, and a completed finish, only after every approval on the way was approved. */
  lemma ApprovedSoFar(o: Origin, history: seq<Reply>, k: nat, call: Call)
    requires Asked(o, history, k, call) && (call.Invoke? || (call.Finish? && call.status == Completed))
    ensures var m := Moment(o, history, k).memory;
            NodeIds(Consumed(m.log)) == Approvals(m.visited) && AllApprove(Consumed(m.log))
    ensures call.Finish? ==> Moment(o, history, k).memory.current.kind == End
    ensures var visited := Moment(o, history, k).memory.visited;
            visited != [] && (call.Invoke? ==> visited[|visited| - 1] == call.node)
  {
    ReplayIsSound(o.sorter, o.input, history[..k]);
  }

  // ---------- endings ----------

  lemma FinishStatuses(o: Origin, history: seq<Reply>, k: nat, call: Call)
    requires Asked(o, history, k, call) && call.Finish?
    ensures call.status in {Completed, Rejected, Failed} && (call.status == Failed <==> call.cause.Some?)
  {
    ReplayIsSound(o.sorter, o.input, history[..k]);
  }

  /** The run is past its loop: it compensates, reports the failure, or has ended. */
  predicate IsPast(machine: Machine) {
    machine.stage.Ended? || machine.stage.place.Compensating? || machine.stage.place.Reporting?
  }

  lemma {:induction false} UndoIsPast(m: Memory, left: seq<Node>, e: RunError)
    ensures IsPast(Undo(m, left, e))
  {
    if left != [] {
      UndoIsPast(m, left[..|left| - 1], e);
    }
  }

  lemma PastStays(plan: Plan, machine: Machine, reply: Reply)
    requires IsPast(machine) || (machine.stage.Asking? && machine.stage.place.Finishing?)
    ensures IsPast(Resume(plan, machine, reply))
  {
    if machine.stage.Asking? {
      var m := machine.memory.(log := machine.memory.log + [Exchange(machine.stage.call, reply)]);
      if machine.stage.place.Compensating? {
        UndoIsPast(m, machine.stage.place.left, machine.stage.place.error);
      }
      UndoIsPast(m, m.completed, FinishFailed);
    }
  }

  lemma {:induction false} PastFrom(o: Origin, history: seq<Reply>, p: nat, q: nat)
    requires p < q <= |history| && Moment(o, history, p).stage.Asking? && Moment(o, history, p).stage.place.Finishing?
    ensures IsPast(Moment(o, history, q))
    decreases q
  {
    assert history[..q][..q - 1] == history[..q - 1];
    if p < q - 1 {
      PastFrom(o, history, p, q - 1);
    }
    PastStays(PlanOf(o.sorter, o.input), Moment(o, history, q - 1), history[q - 1]);
  }

  /** A run asks at most once to finish without an error. */
  lemma FinishOnce(o: Origin, history: seq<Reply>, p: nat, q: nat, call: Call, other: Call)
    requires Asked(o, history, p, call) && call.Finish? && call.cause.None?
    requires Asked(o, history, q, other) && other.Finish? && other.cause.None?
    ensures p == q && call == other
  {
    ReplayIsSound(o.sorter, o.input, history[..p]);
    ReplayIsSound(o.sorter, o.input, history[..q]);
    if p < q {
      PastFrom(o, history, p, q);
    }
    if q < p {
      PastFrom(o, history, q, p);
    }
  }

  /** A run that returned had its own finish accepted. */
  lemma ReturnedWasAccepted(o: Origin, history: seq<Reply>) returns (k: nat)
    requires Replay(o.sorter, o.input, history).stage.Ended?
             && Replay(o.sorter, o.input, history).stage.outcome.Returned?
    ensures var outcome := Replay(o.sorter, o.input, history).stage.outcome;
            outcome.status in {Completed, Rejected}
              && Answered(o, history, k, Finish(outcome.status, outcome.result, None), Done)
  {
    ResultLaw(o.sorter, o.input, history);
    assert history[..|history|] == history;
    k := ExchangeHappened(o, history, |history|, |LogAt(o, history, |history|)| - 1);
  }

  /** Only services that answered are compensated. */
  lemma CompensatedWasDone(o: Origin, history: seq<Reply>, k: nat, node: Node) returns (j: nat, json: string)
    requires Asked(o, history, k, Compensate(node))
    ensures node.compensationMethod != "" && j < k && Answered(o, history, j, Invoke(node), Output(json))
  {
    var machine := Moment(o, history, k);
    var m := machine.memory;
    ReplayIsSound(o.sorter, o.input, history[..k]);
    var left := machine.stage.place.left;
    assert node in Compensated(m.log) + [node] + Reversed(Compensable(left));
    UndoneWereDone(m.completed);
    var i := ServiceAnswered(m.log, node);
    j := ExchangeHappened(o, history, k, i);
    json := m.log[i].reply.json;
  }
}
