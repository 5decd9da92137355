/** The run reads of a node only its identifier, its type and whether it has a compensation: all else is passed on. */
module Parametricity {
  import opened Model
  import opened Runtime

  /** What the run reads of a node. */
  predicate Alike(n: Node, other: Node) {
    && n.id == other.id && n.compensationMethod == other.compensationMethod
    && (n.kind == other.kind || (n.kind.OtherType? && other.kind.OtherType?))
  }

  ghost predicate KeepsShape(f: Node -> Node) {
    forall n {:trigger f(n)} :: Alike(n, f(n))
  }

  function MapNodes(f: Node -> Node, nodes: seq<Node>): (mapped: seq<Node>)
    ensures |mapped| == |nodes|
    ensures forall i | 0 <= i < |nodes| :: mapped[i] == f(nodes[i])
  {
    seq(|nodes|, i requires 0 <= i < |nodes| => f(nodes[i]))
  }

  ghost predicate SameShape(f: Node -> Node, nodes: map<string, Node>, mapped: map<string, Node>) {
    nodes.Keys == mapped.Keys && forall id | id in nodes :: mapped[id] == f(nodes[id])
  }

  lemma {:induction false} IndexMaps(f: Node -> Node, nodes: seq<Node>)
    requires KeepsShape(f)
    ensures SameShape(f, Index(nodes), Index(MapNodes(f, nodes)))
    ensures DistinctIds(MapNodes(f, nodes)) <==> DistinctIds(nodes)
    ensures LastStart(MapNodes(f, nodes)) == match LastStart(nodes) case None => None case Some(n) => Some(f(n))
  {
    if nodes != [] {
      var front := nodes[..|nodes| - 1];
      IndexMaps(f, front);
      assert MapNodes(f, nodes)[..|nodes| - 1] == MapNodes(f, front);
    }
  }

  function MapCall(f: Node -> Node, call: Call): Call {
    match call
    case CreateTask(n) => CreateTask(f(n))
    case AwaitDecision(n) => AwaitDecision(f(n))
    case Invoke(n) => Invoke(f(n))
    case Sleep(n) => Sleep(f(n))
    case Evaluate(_, _) => call
    case Finish(_, _, _) => call
    case Compensate(n) => Compensate(f(n))
  }

  function MapLog(f: Node -> Node, log: seq<Exchange>): (mapped: seq<Exchange>)
    ensures |mapped| == |log|
  {
    if log == [] then [] else
    var last := log[|log| - 1];
    MapLog(f, log[..|log| - 1]) + [Exchange(MapCall(f, last.call), last.reply)]
  }

  function MapMemory(f: Node -> Node, m: Memory): Memory {
    Memory(f(m.current), MapNodes(f, m.visited), MapNodes(f, m.completed), m.lastOutput, m.status, MapLog(f, m.log))
  }

  function MapStage(f: Node -> Node, stage: Stage): Stage {
    match stage
    case Ended(_) => stage
    case Asking(call, Compensating(left, e)) => Asking(MapCall(f, call), Compensating(MapNodes(f, left), e))
    case Asking(call, place) => Asking(MapCall(f, call), place)
  }

  function MapMachine(f: Node -> Node, machine: Machine): Machine {
    Machine(MapMemory(f, machine.memory), MapStage(f, machine.stage))
  }

  lemma NodesAppend(f: Node -> Node, nodes: seq<Node>, n: Node)
    ensures MapNodes(f, nodes + [n]) == MapNodes(f, nodes) + [f(n)]
  {
  }

  lemma LogAppends(f: Node -> Node, log: seq<Exchange>, x: Exchange)
    ensures MapLog(f, log + [x]) == MapLog(f, log) + [Exchange(MapCall(f, x.call), x.reply)]
  {
    assert (log + [x])[..|log|] == log;
  }

  ghost predicate SamePlan(f: Node -> Node, plan: Plan, mapped: Plan) {
    mapped.sorter == plan.sorter && mapped.edges == plan.edges && SameShape(f, plan.nodes, mapped.nodes)
  }

  lemma {:induction false} UndoMaps(f: Node -> Node, m: Memory, left: seq<Node>, e: RunError)
    requires KeepsShape(f)
    ensures Undo(MapMemory(f, m), MapNodes(f, left), e) == MapMachine(f, Undo(m, left, e))
  {
    if left != [] {
      UndoMaps(f, m, left[..|left| - 1], e);
      LastMaps(f, left);
    }
  }

  lemma LastMaps(f: Node -> Node, nodes: seq<Node>)
    requires KeepsShape(f) && nodes != []
    ensures var mapped := MapNodes(f, nodes);
            && |mapped| == |nodes| && mapped[..|mapped| - 1] == MapNodes(f, nodes[..|nodes| - 1])
            && mapped[|mapped| - 1] == f(nodes[|nodes| - 1]) && Alike(nodes[|nodes| - 1], mapped[|mapped| - 1])
  {
  }

  lemma FailMaps(f: Node -> Node, m: Memory, e: RunError)
    requires KeepsShape(f)
    ensures Fail(MapMemory(f, m), e) == MapMachine(f, Fail(m, e))
  {
    UndoMaps(f, m, m.completed, e);
  }

  lemma SameCount(f: Node -> Node, plan: Plan, mapped: Plan)
    requires KeepsShape(f) && SamePlan(f, plan, mapped)
    ensures |mapped.nodes| == |plan.nodes|
  {
    assert |plan.nodes| == |plan.nodes.Keys| && |mapped.nodes| == |mapped.nodes.Keys|;
  }

  lemma {:induction false} EnterMaps(f: Node -> Node, plan: Plan, mapped: Plan, m: Memory, node: Node)
    requires KeepsShape(f) && SamePlan(f, plan, mapped)
    ensures Enter(mapped, MapMemory(f, m), f(node)) == MapMachine(f, Enter(plan, m, node))
    decreases |plan.nodes| + 1 - |m.visited|, 1, 0
  {
    SameCount(f, plan, mapped);
    if |m.visited| > |plan.nodes| {
      FailMaps(f, m, InvalidGraph);
    } else {
      NodesAppend(f, m.visited, node);
      AtNodeMaps(f, plan, mapped, m.(current := node, visited := m.visited + [node]));
    }
  }

  lemma {:induction false} AtNodeMaps(f: Node -> Node, plan: Plan, mapped: Plan, m: Memory)
    requires KeepsShape(f) && SamePlan(f, plan, mapped)
    ensures AtNode(mapped, MapMemory(f, m)) == MapMachine(f, AtNode(plan, m))
    decreases |plan.nodes| + 1 - |m.visited|, 5, 0
  {
    match m.current.kind
    case Start => ChooseMaps(f, plan, mapped, m);
    case OtherType(_) => FailMaps(f, m, InvalidNode);
    case _ =>
  }

  lemma {:induction false} ChooseMaps(f: Node -> Node, plan: Plan, mapped: Plan, m: Memory)
    requires KeepsShape(f) && SamePlan(f, plan, mapped)
    ensures Choose(mapped, MapMemory(f, m)) == MapMachine(f, Choose(plan, m))
    decreases |plan.nodes| + 1 - |m.visited|, 4, 0
  {
    ScanMaps(f, plan, mapped, m, plan.sorter(Candidates(plan.edges, |plan.edges|, m.current.id)), "");
  }

  lemma {:induction false} ScanMaps(f: Node -> Node, plan: Plan, mapped: Plan, m: Memory, edges: seq<Edge>,
                                    fallback: string)
    requires KeepsShape(f) && SamePlan(f, plan, mapped)
    ensures Scan(mapped, MapMemory(f, m), edges, fallback) == MapMachine(f, Scan(plan, m, edges, fallback))
    decreases |plan.nodes| + 1 - |m.visited|, 3, |edges|
  {
    if edges == [] {
      if fallback == "" {
        FailMaps(f, m, NoMatchingEdge);
      } else {
        FollowMaps(f, plan, mapped, m, fallback);
      }
    } else if edges[0].condition == "" {
      ScanMaps(f, plan, mapped, m, edges[1..], if fallback == "" then edges[0].target else fallback);
    }
  }

  lemma {:induction false} FollowMaps(f: Node -> Node, plan: Plan, mapped: Plan, m: Memory, target: string)
    requires KeepsShape(f) && SamePlan(f, plan, mapped)
    ensures Follow(mapped, MapMemory(f, m), target) == MapMachine(f, Follow(plan, m, target))
    decreases |plan.nodes| + 1 - |m.visited|, 2, 0
  {
    if target in plan.nodes {
      EnterMaps(f, plan, mapped, m, plan.nodes[target]);
    } else {
      FailMaps(f, m, InvalidEdge);
    }
  }

  lemma DecideMaps(f: Node -> Node, plan: Plan, mapped: Plan, m: Memory, signal: Signal)
    requires KeepsShape(f) && SamePlan(f, plan, mapped)
    ensures Decide(mapped, MapMemory(f, m), signal) == MapMachine(f, Decide(plan, m, signal))
  {
    var m' := m.(lastOutput := DefaultJson(signal.output));
    match signal.decision
    case Reject =>
    case Approve => ChooseMaps(f, plan, mapped, m');
    case OtherDecision(_) => FailMaps(f, m', InvalidDecision);
  }

  lemma ApprovalMaps(f: Node -> Node, plan: Plan, mapped: Plan, machine: Machine, reply: Reply)
    requires KeepsShape(f) && SamePlan(f, plan, mapped) && machine.stage.Asking?
             && (machine.stage.place.Creating? || machine.stage.place.Awaiting?)
    ensures Resume(mapped, MapMachine(f, machine), reply) == MapMachine(f, Resume(plan, machine, reply))
  {
    var x := Exchange(machine.stage.call, reply);
    var m := machine.memory.(log := machine.memory.log + [x]);
    LogAppends(f, machine.memory.log, x);
    if machine.stage.place.Creating? {
      FailMaps(f, m, TaskNotCreated(m.current.id));
    } else if reply.Received? {
      DecideMaps(f, plan, mapped, m, reply.signal);
    } else {
      FailMaps(f, m, ApprovalTimeout);
      FailMaps(f, m, WaitFailed(m.current.id));
    }
  }

  lemma WorkMaps(f: Node -> Node, plan: Plan, mapped: Plan, machine: Machine, reply: Reply)
    requires KeepsShape(f) && SamePlan(f, plan, mapped) && machine.stage.Asking?
             && (machine.stage.place.Invoking? || machine.stage.place.Sleeping?)
    ensures Resume(mapped, MapMachine(f, machine), reply) == MapMachine(f, Resume(plan, machine, reply))
  {
    var x := Exchange(machine.stage.call, reply);
    var m := machine.memory.(log := machine.memory.log + [x]);
    LogAppends(f, machine.memory.log, x);
    if machine.stage.place.Sleeping? {
      FailMaps(f, m, TimerFailed(m.current.id));
      ChooseMaps(f, plan, mapped, m);
    } else if reply.Output? {
      NodesAppend(f, m.completed, m.current);
      ChooseMaps(f, plan, mapped, m.(lastOutput := DefaultJson(reply.json), completed := m.completed + [m.current]));
    } else {
      FailMaps(f, m, InvokeFailed(m.current.id));
    }
  }

  lemma ChoiceMaps(f: Node -> Node, plan: Plan, mapped: Plan, machine: Machine, reply: Reply)
    requires KeepsShape(f) && SamePlan(f, plan, mapped) && machine.stage.Asking? && machine.stage.place.Evaluating?
    ensures Resume(mapped, MapMachine(f, machine), reply) == MapMachine(f, Resume(plan, machine, reply))
  {
    var x := Exchange(machine.stage.call, reply);
    var m := machine.memory.(log := machine.memory.log + [x]);
    LogAppends(f, machine.memory.log, x);
    FailMaps(f, m, ConditionFailed);
    FollowMaps(f, plan, mapped, m, machine.stage.place.edge.target);
    ScanMaps(f, plan, mapped, m, machine.stage.place.rest, machine.stage.place.fallback);
  }

  lemma EndingMaps(f: Node -> Node, plan: Plan, mapped: Plan, machine: Machine, reply: Reply)
    requires KeepsShape(f) && SamePlan(f, plan, mapped) && machine.stage.Asking?
             && (machine.stage.place.Finishing? || machine.stage.place.Compensating? || machine.stage.place.Reporting?)
    ensures Resume(mapped, MapMachine(f, machine), reply) == MapMachine(f, Resume(plan, machine, reply))
  {
    var x := Exchange(machine.stage.call, reply);
    var m := machine.memory.(log := machine.memory.log + [x]);
    LogAppends(f, machine.memory.log, x);
    if machine.stage.place.Finishing? {
      FailMaps(f, m, FinishFailed);
    } else if machine.stage.place.Compensating? {
      UndoMaps(f, m, machine.stage.place.left, machine.stage.place.error);
    }
  }

  lemma ResumeMaps(f: Node -> Node, plan: Plan, mapped: Plan, machine: Machine, reply: Reply)
    requires KeepsShape(f) && SamePlan(f, plan, mapped)
    ensures Resume(mapped, MapMachine(f, machine), reply) == MapMachine(f, Resume(plan, machine, reply))
  {
    if machine.stage.Asking? {
      match machine.stage.place
      case Creating => ApprovalMaps(f, plan, mapped, machine, reply);
      case Awaiting => ApprovalMaps(f, plan, mapped, machine, reply);
      case Invoking => WorkMaps(f, plan, mapped, machine, reply);
      case Sleeping => WorkMaps(f, plan, mapped, machine, reply);
      case Evaluating(_, _, _) => ChoiceMaps(f, plan, mapped, machine, reply);
      case Finishing => EndingMaps(f, plan, mapped, machine, reply);
      case Compensating(_, _) => EndingMaps(f, plan, mapped, machine, reply);
      case Reporting(_) => EndingMaps(f, plan, mapped, machine, reply);
    }
  }

  /** The run over mapped nodes makes the mapped calls, takes the same turns and ends alike, after every history. */
  lemma {:induction false} ReplayMaps(f: Node -> Node, sorter: seq<Edge> -> seq<Edge>, input: Input,
                                      history: seq<Reply>)
    requires KeepsShape(f) && f(NO_NODE) == NO_NODE
    ensures Replay(sorter, input.(nodes := MapNodes(f, input.nodes)), history)
            == MapMachine(f, Replay(sorter, input, history))
  {
    var other := input.(nodes := MapNodes(f, input.nodes));
    IndexMaps(f, input.nodes);
    var plan, mapped := PlanOf(sorter, input), PlanOf(sorter, other);
    if |history| == 0 {
      var start := LastStart(input.nodes);
      if start.Some? {
        EnterMaps(f, plan, mapped, Blank(start.value), start.value);
      }
    } else {
      ReplayMaps(f, sorter, input, history[..|history| - 1]);
      ResumeMaps(f, plan, mapped, Replay(sorter, input, history[..|history| - 1]), history[|history| - 1]);
    }
  }
}
