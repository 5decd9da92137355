/**
 The workflow run as a resumable machine (`internal/workflowruntime/workflow.go`).  A durable workflow is code
 that is replayed over its recorded history: it asks for one thing at a time (an activity, a signal, a timer),
 stops, and goes on when the reply is there.  `Replay` is that machine after any finite history of replies;
 every behaviour of the activities, conditions, signals, timers and cancellation is some history.
 */
module Runtime {
  import opened Model

  datatype Input = Input(
    instanceId: string, tenantId: string, applicationId: string, starterId: string, variables: string,
    nodes: seq<Node>, edges: seq<Edge>)

  datatype Signal = Signal(taskId: string, nodeId: string, decision: Decision, output: string)

  datatype RunError =
    | InvalidWorkflow | InvalidGraph | InvalidEdge | InvalidNode
    | TaskNotCreated(nodeId: string) | WaitFailed(nodeId: string) | ApprovalTimeout | InvalidDecision
    | InvokeFailed(nodeId: string) | TimerFailed(nodeId: string) | FinishFailed
    | ConditionFailed | NoMatchingEdge

  /** What `Execute` returns: a result, or an error. */
  datatype Outcome = Returned(status: InstanceStatus, result: string) | Raised(error: RunError)

  /** What the run waits for. */
  datatype Call =
    | CreateTask(node: Node)
    | AwaitDecision(node: Node)
    | Invoke(node: Node)
    | Sleep(node: Node)
    | Evaluate(expression: string, lastOutput: string)
    | Finish(status: InstanceStatus, result: string, cause: Option<RunError>)
    | Compensate(node: Node)

  /** A reply that does not fit its call stands for a failure of the call. */
  datatype Reply = Done | Denied | Output(json: string) | Received(signal: Signal) | TimedOut | Truth(holds: bool)

  datatype Exchange = Exchange(call: Call, reply: Reply)

  /** Where the code stands while it waits. */
  datatype Place =
    | Creating | Awaiting | Invoking | Sleeping
    | Evaluating(edge: Edge, rest: seq<Edge>, fallback: string)
    | Finishing
    | Compensating(left: seq<Node>, error: RunError)
    | Reporting(error: RunError)

  datatype Stage = Asking(call: Call, place: Place) | Ended(outcome: Outcome)

  /** The local variables of `Execute`, with the nodes visited and the exchanges made so far. */
  datatype Memory = Memory(
    current: Node, visited: seq<Node>, completed: seq<Node>, lastOutput: string, status: InstanceStatus,
      log: seq<Exchange>)

  datatype Machine = Machine(memory: Memory, stage: Stage)

  /** The graph a run follows.  `sorter` stands for the library sort by priority, which is not stable. */
  datatype Plan = Plan(sorter: seq<Edge> -> seq<Edge>, nodes: map<string, Node>, edges: seq<Edge>)

  predicate InOrder(edges: seq<Edge>, i: nat, j: nat)
    requires i < |edges| && j < |edges|
  {
    edges[i].priority <= edges[j].priority
  }

  ghost predicate ByPriority(edges: seq<Edge>) {
    forall i: nat, j: nat {:trigger InOrder(edges, i, j)} | i < j < |edges| :: InOrder(edges, i, j)
  }

  ghost predicate SortOf(s: seq<Edge>, sorted: seq<Edge>) {
    multiset(sorted) == multiset(s) && ByPriority(sorted)
  }

  ghost predicate IsSorter(sorter: seq<Edge> -> seq<Edge>) {
    forall s {:trigger SortOf(s, sorter(s))} :: SortOf(s, sorter(s))
  }

  function DefaultJson(text: string): string {
    if text == "" then "{}" else text
  }

  function LastStart(nodes: seq<Node>): Option<Node> {
    if nodes == [] then None
    else if nodes[|nodes| - 1].kind == Start then Some(nodes[|nodes| - 1])
    else LastStart(nodes[..|nodes| - 1])
  }

  /** Those of the first `n` edges that leave node `id`. */
  function Candidates(edges: seq<Edge>, n: nat, id: string): seq<Edge>
    requires n <= |edges|
  {
    if n == 0 then [] else
    Candidates(edges, n - 1, id) + (if edges[n - 1].source == id then [edges[n - 1]] else [])
  }

  predicate LeavesBy(edges: seq<Edge>, e: Edge, id: string) {
    e in edges && e.source == id
  }

  lemma {:induction false} CandidatesAre(edges: seq<Edge>, n: nat, id: string)
    requires n <= |edges|
    ensures forall e :: e in Candidates(edges, n, id) <==> LeavesBy(edges[..n], e, id)
  {
    if n > 0 {
      CandidatesAre(edges, n - 1, id);
      assert edges[..n] == edges[..n - 1] + [edges[n - 1]];
    }
  }

  // ---------- the deferred part: compensation and the failure report ----------

  /** Goes on with the compensation of the services that are `left`, last one first. */
  function Undo(m: Memory, left: seq<Node>, error: RunError): (r: Machine)
    ensures r.stage.Asking? && !r.stage.place.Awaiting? && r.memory == m
  {
    if left == [] then
      Machine(m, Asking(Finish(Failed, m.lastOutput, Some(error)), Reporting(error)))
    else
      var front, last := left[..|left| - 1], left[|left| - 1];
      if last.compensationMethod == "" then Undo(m, front, error)
      else Machine(m, Asking(Compensate(last), Compensating(front, error)))
  }

  function Fail(m: Memory, error: RunError): Machine {
    Undo(m, m.completed, error)
  }

  // ---------- the loop over nodes ----------

  function AskFinish(m: Memory): Machine {
    Machine(m, Asking(Finish(m.status, m.lastOutput, None), Finishing))
  }

  /** The head of the loop with `node` as the current node, up to the next wait. */
  function Enter(plan: Plan, m0: Memory, node: Node): (r: Machine)
    ensures r.stage.Asking? && !r.stage.place.Awaiting?
    ensures r.memory.log == m0.log && r.memory.lastOutput == m0.lastOutput
    decreases |plan.nodes| + 1 - |m0.visited|, 1, 0
  {
    if |m0.visited| > |plan.nodes| then Fail(m0, InvalidGraph)
    else AtNode(plan, m0.(current := node, visited := m0.visited + [node]))
  }

  /** The switch over the type of the current node. */
  function AtNode(plan: Plan, m: Memory): (r: Machine)
    ensures r.stage.Asking? && !r.stage.place.Awaiting?
    ensures r.memory.log == m.log && r.memory.lastOutput == m.lastOutput
    decreases |plan.nodes| + 1 - |m.visited|, 5, 0
  {
    match m.current.kind
    case Start => Choose(plan, m)
    case Approval => Machine(m, Asking(CreateTask(m.current), Creating))
    case ServiceTask => Machine(m, Asking(Invoke(m.current), Invoking))
    case Timer => Machine(m, Asking(Sleep(m.current), Sleeping))
    case End => AskFinish(m)
    case OtherType(_) => Fail(m, InvalidNode)
  }

  /** `selectNext` from its beginning, and the loop after it. */
  function Choose(plan: Plan, m: Memory): (r: Machine)
    ensures r.stage.Asking? && !r.stage.place.Awaiting?
    ensures r.memory.log == m.log && r.memory.lastOutput == m.lastOutput
    decreases |plan.nodes| + 1 - |m.visited|, 4, 0
  {
    Scan(plan, m, plan.sorter(Candidates(plan.edges, |plan.edges|, m.current.id)), "")
  }

  /** `selectNext` over the remaining candidates; `fallback` is the target of the first unconditional edge seen. */
  function Scan(plan: Plan, m: Memory, edges: seq<Edge>, fallback: string): (r: Machine)
    ensures r.stage.Asking? && !r.stage.place.Awaiting?
    ensures r.memory.log == m.log && r.memory.lastOutput == m.lastOutput
    decreases |plan.nodes| + 1 - |m.visited|, 3, |edges|
  {
    if edges == [] then
      if fallback != "" then Follow(plan, m, fallback) else Fail(m, NoMatchingEdge)
    else if edges[0].condition == "" then
      Scan(plan, m, edges[1..], if fallback == "" then edges[0].target else fallback)
    else
      Machine(m, Asking(Evaluate(edges[0].condition, m.lastOutput), Evaluating(edges[0], edges[1..], fallback)))
  }

  function Follow(plan: Plan, m: Memory, target: string): (r: Machine)
    ensures r.stage.Asking? && !r.stage.place.Awaiting?
    ensures r.memory.log == m.log && r.memory.lastOutput == m.lastOutput
    decreases |plan.nodes| + 1 - |m.visited|, 2, 0
  {
    if target in plan.nodes then Enter(plan, m, plan.nodes[target]) else Fail(m, InvalidEdge)
  }

  // ---------- replies ----------

  function Decide(plan: Plan, m: Memory, signal: Signal): Machine {
    var m' := m.(lastOutput := DefaultJson(signal.output));
    match signal.decision
    case Reject => AskFinish(m'.(status := Rejected))
    case Approve => Choose(plan, m')
    case OtherDecision(_) => Fail(m', InvalidDecision)
  }

  function Resume(plan: Plan, machine: Machine, reply: Reply): (r: Machine)
    ensures r.memory.log
            == machine.memory.log + (if machine.stage.Asking? then [Exchange(machine.stage.call, reply)] else [])
  {
    match machine.stage
    case Ended(_) => machine
    case Asking(call, place) =>
      var m := machine.memory.(log := machine.memory.log + [Exchange(call, reply)]);
      match place
      case Creating =>
        if reply == Done then Machine(m, Asking(AwaitDecision(m.current), Awaiting))
          else Fail(m, TaskNotCreated(m.current.id))
      case Awaiting =>
        if reply.Received? then
          if reply.signal.nodeId == m.current.id then Decide(plan, m, reply.signal) else machine.(memory := m)
        else if reply == TimedOut then Fail(m, ApprovalTimeout)
        else Fail(m, WaitFailed(m.current.id))
      case Invoking =>
        if reply.Output? then
          Choose(plan, m.(lastOutput := DefaultJson(reply.json), completed := m.completed + [m.current]))
        else Fail(m, InvokeFailed(m.current.id))
      case Sleeping =>
        if reply == Done then Choose(plan, m) else Fail(m, TimerFailed(m.current.id))
      case Evaluating(edge, rest, fallback) =>
        if !reply.Truth? then Fail(m, ConditionFailed)
        else if reply.holds then Follow(plan, m, edge.target)
        else Scan(plan, m, rest, fallback)
      case Finishing =>
        if reply == Done then Machine(m, Ended(Returned(m.status, m.lastOutput))) else Fail(m, FinishFailed)
      case Compensating(left, error) =>
        Undo(m, left, error)
      case Reporting(error) => Machine(m, Ended(Raised(error)))
  }

  // ---------- whole runs ----------

  function PlanOf(sorter: seq<Edge> -> seq<Edge>, input: Input): Plan {
    Plan(sorter, Index(input.nodes), input.edges)
  }

  const NO_NODE := Node("", "", OtherType(""), OtherAssignee(""), "", 0, "", "", "", "", 0, "")

  function Blank(current: Node): Memory {
    Memory(current, [], [], "{}", Completed, [])
  }

  function Begin(sorter: seq<Edge> -> seq<Edge>, input: Input): Machine {
    var start := LastStart(input.nodes);
    if input.instanceId == "" || input.tenantId == "" || input.applicationId == "" || start.None?
      || start.value.id == "" then
      Machine(Blank(NO_NODE), Ended(Raised(InvalidWorkflow)))
    else
      Enter(PlanOf(sorter, input), Blank(start.value), start.value)
  }

  /** The run after a history of replies. */
  function Replay(sorter: seq<Edge> -> seq<Edge>, input: Input, history: seq<Reply>): Machine {
    if history == [] then Begin(sorter, input) else
    Resume(PlanOf(sorter, input), Replay(sorter, input, history[..|history| - 1]), history[|history| - 1])
  }

  /** A run that has ended stays as it is. */
  lemma {:induction false} EndedStays(sorter: seq<Edge> -> seq<Edge>, input: Input, history: seq<Reply>, k: nat)
    requires k <= |history| && Replay(sorter, input, history[..k]).stage.Ended?
    ensures Replay(sorter, input, history) == Replay(sorter, input, history[..k])
  {
    if k == |history| {
      assert history[..k] == history;
    } else {
      assert history[..|history| - 1][..k] == history[..k];
      EndedStays(sorter, input, history[..|history| - 1], k);
    }
  }
}
