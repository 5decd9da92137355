/** What every run of the workflow keeps, for all graphs, all sort orders and all histories of replies. */
module RuntimeLaws {
  import opened Model
  import opened Graph
  import opened Kahn
  import opened Validation
  import opened Runtime

  // ---------- reading a log ----------

  /** The services that answered, in order of completion. */
  function Services(log: seq<Exchange>): seq<Node> {
    if log == [] then [] else
    var last := log[|log| - 1];
    Services(log[..|log| - 1]) + (if last.call.Invoke? && last.reply.Output? then [last.call.node] else [])
  }

  /** The services whose compensation was attempted, in order. */
  function Compensated(log: seq<Exchange>): seq<Node> {
    if log == [] then [] else
    var last := log[|log| - 1];
    Compensated(log[..|log| - 1]) + (if last.call.Compensate? then [last.call.node] else [])
  }

  /** The number of failed finishes that were reported. */
  function Reports(log: seq<Exchange>): nat {
    if log == [] then 0 else
    var last := log[|log| - 1];
    Reports(log[..|log| - 1]) + (if last.call.Finish? && last.call.status == Failed then 1 else 0)
  }

  /** A wait takes the signal that names its own node. */
  predicate TakesSignal(x: Exchange) {
    x.call.AwaitDecision? && x.reply.Received? && x.reply.signal.nodeId == x.call.node.id
  }

  /** The signals the run acted on, in order. */
  function Consumed(log: seq<Exchange>): seq<Signal> {
    if log == [] then [] else
    var last := log[|log| - 1];
    Consumed(log[..|log| - 1]) + (if TakesSignal(last) then [last.reply.signal] else [])
  }

  predicate IsRequest(call: Call) {
    call.CreateTask? || call.Invoke?
  }

  /** The nodes for which a task was created or a service invoked, in order, whatever came of it. */
  function Requested(log: seq<Exchange>): seq<Node> {
    if log == [] then [] else
    var last := log[|log| - 1];
    Requested(log[..|log| - 1]) + (if IsRequest(last.call) then [last.call.node] else [])
  }

  function Compensable(services: seq<Node>): seq<Node> {
    if services == [] then [] else
    var last := services[|services| - 1];
    Compensable(services[..|services| - 1]) + (if last.compensationMethod != "" then [last] else [])
  }

  function Reversed<T>(s: seq<T>): seq<T> {
    if s == [] then [] else [s[|s| - 1]] + Reversed(s[..|s| - 1])
  }

  function NodeIds(signals: seq<Signal>): seq<string> {
    seq(|signals|, i requires 0 <= i < |signals| => signals[i].nodeId)
  }

  function Ids(nodes: seq<Node>): (ids: seq<string>)
    ensures |ids| == |nodes|
  {
    seq(|nodes|, i requires 0 <= i < |nodes| => nodes[i].id)
  }

  /** The approval nodes among the visited ones, in order. */
  function Approvals(visited: seq<Node>): seq<string> {
    if visited == [] then [] else
    var last := visited[|visited| - 1];
    Approvals(visited[..|visited| - 1]) + (if last.kind == Approval then [last.id] else [])
  }

  /** The approval and service nodes among the visited ones, in order. */
  function Workload(visited: seq<Node>): seq<Node> {
    if visited == [] then [] else
    var last := visited[|visited| - 1];
    Workload(visited[..|visited| - 1]) + (if last.kind in {Approval, ServiceTask} then [last] else [])
  }

  /** The service nodes among the visited ones, in order. */
  function ServiceNodes(visited: seq<Node>): seq<Node> {
    if visited == [] then [] else
    var last := visited[|visited| - 1];
    ServiceNodes(visited[..|visited| - 1]) + (if last.kind == ServiceTask then [last] else [])
  }

  predicate AllApprove(signals: seq<Signal>) {
    forall i | 0 <= i < |signals| :: signals[i].decision == Approve
  }

  lemma Logged(log: seq<Exchange>, x: Exchange)
    ensures Services(log + [x]) == Services(log) + (if x.call.Invoke? && x.reply.Output? then [x.call.node] else [])
    ensures Compensated(log + [x]) == Compensated(log) + (if x.call.Compensate? then [x.call.node] else [])
    ensures Reports(log + [x]) == Reports(log) + (if x.call.Finish? && x.call.status == Failed then 1 else 0)
    ensures Consumed(log + [x]) == Consumed(log) + (if TakesSignal(x) then [x.reply.signal] else [])
    ensures Requested(log + [x]) == Requested(log) + (if IsRequest(x.call) then [x.call.node] else [])
  {
    assert (log + [x])[..|log|] == log;
  }

  lemma Visits(visited: seq<Node>, node: Node)
    ensures Approvals(visited + [node]) == Approvals(visited) + (if node.kind == Approval then [node.id] else [])
    ensures Workload(visited + [node])
            == Workload(visited) + (if node.kind in {Approval, ServiceTask} then [node] else [])
    ensures ServiceNodes(visited + [node]) == ServiceNodes(visited) + (if node.kind == ServiceTask then [node] else [])
    ensures Ids(visited + [node]) == Ids(visited) + [node.id]
  {
    assert (visited + [node])[..|visited|] == visited;
  }

  // ---------- the saga invariant ----------

  /** The part of the log that the forward run has written. */
  predicate Forward(m: Memory) {
    && m.completed == Services(m.log) && Compensated(m.log) == [] && Reports(m.log) == 0
    && Requested(m.log) == Workload(m.visited) && Services(m.log) == ServiceNodes(m.visited)
    && m.visited != [] && m.current == m.visited[|m.visited| - 1]
  }

  /** The forward part while the request of the current node is on its way. */
  predicate Requesting(m: Memory) {
    && m.completed == Services(m.log) && Compensated(m.log) == [] && Reports(m.log) == 0
    && Requested(m.log) + [m.current] == Workload(m.visited)
    && Services(m.log) + (if m.current.kind == ServiceTask then [m.current] else []) == ServiceNodes(m.visited)
    && m.visited != [] && m.current == m.visited[|m.visited| - 1]
  }

  /** Every approval visited so far was asked for, decided, and approved. */
  predicate Clear(m: Memory) {
    Forward(m) && m.status == Completed && NodeIds(Consumed(m.log)) == Approvals(m.visited)
      && AllApprove(Consumed(m.log))
  }

  predicate Undecided(m: Memory) {
    && m.status == Completed && m.visited != [] && m.current == m.visited[|m.visited| - 1] && m.current.kind == Approval
    && NodeIds(Consumed(m.log)) + [m.current.id] == Approvals(m.visited) && AllApprove(Consumed(m.log))
  }

  /** The last decision was a rejection, and it was the first one. */
  predicate RejectedLast(signals: seq<Signal>) {
    signals != [] && signals[|signals| - 1].decision == Reject && AllApprove(signals[..|signals| - 1])
  }

  predicate Concluded(m: Memory) {
    && Forward(m) && NodeIds(Consumed(m.log)) == Approvals(m.visited)
    && (m.status == Completed ==> AllApprove(Consumed(m.log)) && m.current.kind == End)
    && (m.status != Completed ==> m.status == Rejected && RejectedLast(Consumed(m.log)))
  }

  predicate Undone(m: Memory) {
    m.completed == Services(m.log) && Compensated(m.log) == Reversed(Compensable(m.completed))
  }

  predicate Sound(machine: Machine) {
    var m := machine.memory;
    match machine.stage
    case Asking(call, Creating) =>
      call == CreateTask(m.current) && Undecided(m) && Requesting(m)
    case Asking(call, Awaiting) => call == AwaitDecision(m.current) && Forward(m) && Undecided(m)
    case Asking(call, Invoking) =>
      && call == Invoke(m.current) && m.current.kind == ServiceTask && Requesting(m) && m.status == Completed
      && NodeIds(Consumed(m.log)) == Approvals(m.visited) && AllApprove(Consumed(m.log))
    case Asking(call, Sleeping) => call == Sleep(m.current) && Clear(m)
    case Asking(call, Evaluating(edge, rest, fallback)) => call == Evaluate(edge.condition, m.lastOutput) && Clear(m)
    case Asking(call, Finishing) => call == Finish(m.status, m.lastOutput, None) && Concluded(m)
    case Asking(call, Compensating(left, e)) =>
      && call.Compensate? && call.node.compensationMethod != ""
      && m.completed == Services(m.log) && Reports(m.log) == 0 && Requested(m.log) == Workload(m.visited)
      && Compensated(m.log) + [call.node] + Reversed(Compensable(left)) == Reversed(Compensable(m.completed))
    case Asking(call, Reporting(e)) =>
      call == Finish(Failed, m.lastOutput, Some(e)) && Undone(m) && Reports(m.log) == 0
        && Requested(m.log) == Workload(m.visited)
    case Ended(Returned(status, result)) =>
      Concluded(m) && m.log != [] && m.log[|m.log| - 1] == Exchange(Finish(status, result, None), Done)
        && status == m.status
    case Ended(Raised(e)) =>
      && Requested(m.log) == Workload(m.visited)
      && (if m.log == [] then e == InvalidWorkflow && m.completed == [] else
          && Undone(m) && Reports(m.log) == 1
          && m.log[|m.log| - 1].call == Finish(Failed, m.lastOutput, Some(e)))
  }

  lemma UndoStep(services: seq<Node>)
    requires services != []
    ensures var front, last := services[..|services| - 1], services[|services| - 1];
            Reversed(Compensable(services)) ==
            if last.compensationMethod == "" then Reversed(Compensable(front))
              else [last] + Reversed(Compensable(front))
  {
    var front, last := services[..|services| - 1], services[|services| - 1];
    var c := Compensable(front);
    if last.compensationMethod == "" {
      assert c + [] == c;
    } else {
      assert (c + [last])[..|c|] == c;
    }
  }

  lemma {:induction false} UndoIsSound(m: Memory, left: seq<Node>, e: RunError)
    requires m.completed == Services(m.log) && Reports(m.log) == 0 && Requested(m.log) == Workload(m.visited)
    requires Compensated(m.log) + Reversed(Compensable(left)) == Reversed(Compensable(m.completed))
    ensures Sound(Undo(m, left, e))
  {
    var done := Compensated(m.log);
    if left == [] {
      assert done + [] == done;
    } else {
      var front, last := left[..|left| - 1], left[|left| - 1];
      UndoStep(left);
      if last.compensationMethod == "" {
        UndoIsSound(m, front, e);
      } else {
        var rest := Reversed(Compensable(front));
        assert done + ([last] + rest) == done + [last] + rest;
      }
    }
  }

  lemma FailIsSound(m: Memory, e: RunError)
    requires m.completed == Services(m.log) && Compensated(m.log) == [] && Reports(m.log) == 0
    requires Requested(m.log) == Workload(m.visited)
    ensures Sound(Fail(m, e))
  {
    UndoIsSound(m, m.completed, e);
  }

  lemma {:induction false} EnterIsSound(plan: Plan, m0: Memory, node: Node)
    requires m0.visited != [] ==> Clear(m0)
    requires m0.visited == [] ==> m0 == Blank(m0.current)
    ensures Sound(Enter(plan, m0, node))
    decreases |plan.nodes| + 1 - |m0.visited|, 1, 0
  {
    if |m0.visited| > |plan.nodes| {
      FailIsSound(m0, InvalidGraph);
    } else {
      var m := m0.(current := node, visited := m0.visited + [node]);
      Visits(m0.visited, node);
      match node.kind
      case Start => ChooseIsSound(plan, m);
      case OtherType(_) => FailIsSound(m, InvalidNode);
      case _ =>
    }
  }

  lemma {:induction false} ChooseIsSound(plan: Plan, m: Memory)
    requires Clear(m)
    ensures Sound(Choose(plan, m))
    decreases |plan.nodes| + 1 - |m.visited|, 4, 0
  {
    ScanIsSound(plan, m, plan.sorter(Candidates(plan.edges, |plan.edges|, m.current.id)), "");
  }

  lemma {:induction false} ScanIsSound(plan: Plan, m: Memory, edges: seq<Edge>, fallback: string)
    requires Clear(m)
    ensures Sound(Scan(plan, m, edges, fallback))
    decreases |plan.nodes| + 1 - |m.visited|, 3, |edges|
  {
    if edges == [] {
      if fallback != "" {
        FollowIsSound(plan, m, fallback);
      } else {
        FailIsSound(m, NoMatchingEdge);
      }
    } else if edges[0].condition == "" {
      ScanIsSound(plan, m, edges[1..], if fallback == "" then edges[0].target else fallback);
    }
  }

  lemma {:induction false} FollowIsSound(plan: Plan, m: Memory, target: string)
    requires Clear(m)
    ensures Sound(Follow(plan, m, target))
    decreases |plan.nodes| + 1 - |m.visited|, 2, 0
  {
    if target in plan.nodes {
      EnterIsSound(plan, m, plan.nodes[target]);
    } else {
      FailIsSound(m, InvalidEdge);
    }
  }

  lemma DecideIsSound(plan: Plan, before: Memory, signal: Signal)
    requires Forward(before) && Undecided(before) && signal.nodeId == before.current.id
    ensures Sound(Decide(plan, before.(log := before.log + [Exchange(AwaitDecision(before.current), Received(signal))]),
                         signal))
  {
    var x := Exchange(AwaitDecision(before.current), Received(signal));
    Logged(before.log, x);
    var consumed := Consumed(before.log);
    var m := before.(log := before.log + [x], lastOutput := DefaultJson(signal.output));
    assert NodeIds(consumed + [signal]) == NodeIds(consumed) + [signal.nodeId];
    assert (consumed + [signal])[..|consumed|] == consumed;
    match signal.decision
    case Approve => ChooseIsSound(plan, m);
    case Reject =>
    case OtherDecision(_) => FailIsSound(m, InvalidDecision);
  }

  /** Replies to the calls that belong to a node. */
  lemma NodeReplyIsSound(plan: Plan, machine: Machine, reply: Reply)
    requires Sound(machine) && machine.stage.Asking?
    requires machine.stage.place.Creating? || machine.stage.place.Awaiting?
             || machine.stage.place.Invoking? || machine.stage.place.Sleeping?
    ensures Sound(Resume(plan, machine, reply))
  {
    var before := machine.memory;
    var x := Exchange(machine.stage.call, reply);
    var m := before.(log := before.log + [x]);
    Logged(before.log, x);
    match machine.stage.place
    case Creating =>
      if reply != Done { FailIsSound(m, TaskNotCreated(m.current.id)); }
    case Awaiting =>
      if reply.Received? {
        if reply.signal.nodeId == m.current.id {
          DecideIsSound(plan, before, reply.signal);
        }
      } else if reply == TimedOut {
        FailIsSound(m, ApprovalTimeout);
      } else {
        FailIsSound(m, WaitFailed(m.current.id));
      }
    case Invoking =>
      if reply.Output? {
        ChooseIsSound(plan, m.(lastOutput := DefaultJson(reply.json), completed := m.completed + [m.current]));
      } else {
        FailIsSound(m, InvokeFailed(m.current.id));
      }
    case Sleeping =>
      if reply == Done { ChooseIsSound(plan, m); } else { FailIsSound(m, TimerFailed(m.current.id)); }
  }

  /** Replies to the calls that finish or undo the run. */
  lemma LastReplyIsSound(plan: Plan, machine: Machine, reply: Reply)
    requires Sound(machine) && machine.stage.Asking?
    requires machine.stage.place.Finishing? || machine.stage.place.Compensating? || machine.stage.place.Reporting?
    ensures Sound(Resume(plan, machine, reply))
  {
    var x := Exchange(machine.stage.call, reply);
    var m := machine.memory.(log := machine.memory.log + [x]);
    Logged(machine.memory.log, x);
    match machine.stage.place
    case Finishing =>
      if reply != Done { FailIsSound(m, FinishFailed); }
    case Compensating(left, error) =>
      UndoIsSound(m, left, error);
    case Reporting(error) =>
  }

  lemma ResumeIsSound(plan: Plan, machine: Machine, reply: Reply)
    requires Sound(machine)
    ensures Sound(Resume(plan, machine, reply))
  {
    if machine.stage.Asking? {
      var x := Exchange(machine.stage.call, reply);
      var m := machine.memory.(log := machine.memory.log + [x]);
      Logged(machine.memory.log, x);
      match machine.stage.place
      case Evaluating(edge, rest, fallback) =>
        if !reply.Truth? {
          FailIsSound(m, ConditionFailed);
        } else if reply.holds {
          FollowIsSound(plan, m, edge.target);
        } else {
          ScanIsSound(plan, m, rest, fallback);
        }
      case Creating => NodeReplyIsSound(plan, machine, reply);
      case Awaiting => NodeReplyIsSound(plan, machine, reply);
      case Invoking => NodeReplyIsSound(plan, machine, reply);
      case Sleeping => NodeReplyIsSound(plan, machine, reply);
      case _ => LastReplyIsSound(plan, machine, reply);
    }
  }

  lemma {:induction false} ReplayIsSound(sorter: seq<Edge> -> seq<Edge>, input: Input, history: seq<Reply>)
    ensures Sound(Replay(sorter, input, history))
  {
    if history == [] {
      var start := LastStart(input.nodes);
      if Begin(sorter, input).stage != Ended(Raised(InvalidWorkflow)) || Begin(sorter, input).memory != Blank(NO_NODE) {
        EnterIsSound(PlanOf(sorter, input), Blank(start.value), start.value);
      }
    } else {
      ReplayIsSound(sorter, input, history[..|history| - 1]);
      ResumeIsSound(PlanOf(sorter, input), Replay(sorter, input, history[..|history| - 1]), history[|history| - 1]);
    }
  }

  // ---------- sagas and results ----------

  /** The input checks at the top of `Execute`. */
  predicate Admitted(input: Input) {
    && input.instanceId != "" && input.tenantId != "" && input.applicationId != ""
    && LastStart(input.nodes).Some? && LastStart(input.nodes).value.id != ""
  }

  lemma {:induction false} AdmittedRunsAsk(sorter: seq<Edge> -> seq<Edge>, input: Input, history: seq<Reply>)
    requires Admitted(input)
    ensures Replay(sorter, input, history).stage.Asking? || Replay(sorter, input, history).memory.log != []
  {
    if history == [] {
      var start := LastStart(input.nodes).value;
      EnterIsSound(PlanOf(sorter, input), Blank(start), start);
    } else {
      AdmittedRunsAsk(sorter, input, history[..|history| - 1]);
    }
  }

  /**
   Saga law.  A run that raises an error has attempted exactly the compensable ones of its completed services,
   each once, last completed first, whatever the compensations answered, and has then reported one failed finish.
   A run that returns has attempted none.
   */
  lemma SagaLaw(sorter: seq<Edge> -> seq<Edge>, input: Input, history: seq<Reply>)
    requires Admitted(input) && Replay(sorter, input, history).stage.Ended?
    ensures var Machine(m, Ended(outcome)) := Replay(sorter, input, history);
            match outcome
            case Raised(e) =>
              && Compensated(m.log) == Reversed(Compensable(Services(m.log)))
              && Reports(m.log) == 1 && m.log[|m.log| - 1].call == Finish(Failed, m.lastOutput, Some(e))
            case Returned(_, _) => Compensated(m.log) == [] && Reports(m.log) == 0
  {
    ReplayIsSound(sorter, input, history);
    AdmittedRunsAsk(sorter, input, history);
  }

  /**
   Result law.  A run that returns has had its own finish accepted with the status and output it returns.  The
   status is rejected exactly when the last decision was a rejection; otherwise an end node was reached and
   every approval on the way there, in order, was approved.  Either way every service on the way has answered.
   */
  lemma ResultLaw(sorter: seq<Edge> -> seq<Edge>, input: Input, history: seq<Reply>)
    requires Replay(sorter, input, history).stage.Ended? && Replay(sorter, input, history).stage.outcome.Returned?
    ensures var Machine(m, Ended(Returned(status, result))) := Replay(sorter, input, history);
            var decisions := Consumed(m.log);
            && status in {Completed, Rejected}
            && m.log != [] && m.log[|m.log| - 1] == Exchange(Finish(status, result, None), Done)
            && (status == Rejected <==> decisions != [] && decisions[|decisions| - 1].decision == Reject)
            && NodeIds(decisions) == Approvals(m.visited) && Services(m.log) == ServiceNodes(m.visited)
            && (status == Completed ==> AllApprove(decisions) && m.current.kind == End)
            && (status == Rejected ==> AllApprove(decisions[..|decisions| - 1]))
  {
    ReplayIsSound(sorter, input, history);
  }

  // ---------- runs over accepted graphs ----------

  /** A plan whose graph the validator accepts. */
  ghost predicate ValidPlan(plan: Plan, start: string) {
    && IsSorter(plan.sorter)
    && ValidGraph(plan.nodes, plan.edges) && OnlyStart(plan.nodes, start)
    && (forall id | id in plan.nodes :: plan.nodes[id].id == id && id != "" && !plan.nodes[id].kind.OtherType?)
  }

  /** The visited nodes form a path from the start node. */
  ghost predicate OnPath(plan: Plan, start: string, visited: seq<Node>) {
    && visited != []
    && IsPath(Arcs(plan.edges), Ids(visited)) && Ids(visited)[0] == start
    && (forall n | n in visited :: n.id in plan.nodes && plan.nodes[n.id] == n)
  }

  predicate Leave(edges: seq<Edge>, candidates: seq<Edge>, id: string) {
    forall e | e in candidates :: e in edges && e.source == id
  }

  predicate IsGraphError(e: RunError) {
    e in {InvalidWorkflow, InvalidGraph, InvalidEdge, InvalidNode}
  }

  ghost predicate OnTrack(plan: Plan, start: string, machine: Machine) {
    var m := machine.memory;
    && OnPath(plan, start, m.visited) && m.current == m.visited[|m.visited| - 1]
    && match machine.stage
       case Asking(call, Evaluating(edge, rest, fallback)) =>
         && edge in plan.edges && edge.source == m.current.id
         && Leave(plan.edges, rest, m.current.id)
         && (fallback == "" || HasArc(Arcs(plan.edges), m.current.id, fallback))
       case Asking(call, Compensating(left, e)) => !IsGraphError(e)
       case Asking(call, Reporting(e)) => !IsGraphError(e)
       case Ended(Raised(e)) => !IsGraphError(e)
       case _ => true
  }

  lemma {:induction false} UndoOnTrack(plan: Plan, start: string, m: Memory, left: seq<Node>, e: RunError)
    requires OnPath(plan, start, m.visited) && m.current == m.visited[|m.visited| - 1] && !IsGraphError(e)
    ensures OnTrack(plan, start, Undo(m, left, e))
  {
    if left != [] {
      UndoOnTrack(plan, start, m, left[..|left| - 1], e);
    }
  }

  /** The path so far, longer by `node`, is still a path, and so no longer than the node list. */
  lemma StepOnPath(plan: Plan, start: string, visited: seq<Node>, node: Node)
    requires ValidPlan(plan, start) && node.id in plan.nodes && plan.nodes[node.id] == node
    requires if visited == [] then node.id == start
             else OnPath(plan, start, visited) && HasArc(Arcs(plan.edges), visited[|visited| - 1].id, node.id)
    ensures OnPath(plan, start, visited + [node]) && |visited| < |plan.nodes|
  {
    OnPathGrows(plan, start, visited, node);
    PathsAreShort(plan.nodes, plan.edges, Ids(visited + [node]));
  }

  lemma OnPathGrows(plan: Plan, start: string, visited: seq<Node>, node: Node)
    requires node.id in plan.nodes && plan.nodes[node.id] == node
    requires if visited == [] then node.id == start
             else OnPath(plan, start, visited) && HasArc(Arcs(plan.edges), visited[|visited| - 1].id, node.id)
    ensures OnPath(plan, start, visited + [node])
  {
    Visits(visited, node);
    if visited != [] {
      PathGrows(Arcs(plan.edges), Ids(visited), node.id);
    }
  }

  lemma PathGrows(arcs: seq<(string, string)>, path: seq<string>, id: string)
    requires path != [] && IsPath(arcs, path) && HasArc(arcs, path[|path| - 1], id)
    ensures IsPath(arcs, path + [id])
  {
    forall k | 0 <= k < |path| ensures HasArc(arcs, (path + [id])[k], (path + [id])[k + 1]) {
      assert k < |path| - 1 ==> HasArc(arcs, path[k], path[k + 1]);
    }
  }

  lemma {:induction false} EnterOnTrack(plan: Plan, start: string, m0: Memory, node: Node)
    requires ValidPlan(plan, start) && node.id in plan.nodes && plan.nodes[node.id] == node
    requires if m0.visited == [] then node.id == start
             else OnPath(plan, start, m0.visited) && HasArc(Arcs(plan.edges), m0.visited[|m0.visited| - 1].id, node.id)
    ensures OnTrack(plan, start, Enter(plan, m0, node))
    decreases |plan.nodes| + 1 - |m0.visited|, 1, 0
  {
    StepOnPath(plan, start, m0.visited, node);
    if node.kind == Start {
      ChooseOnTrack(plan, start, m0.(current := node, visited := m0.visited + [node]));
    }
  }

  lemma {:induction false} ChooseOnTrack(plan: Plan, start: string, m: Memory)
    requires ValidPlan(plan, start) && OnPath(plan, start, m.visited) && m.current == m.visited[|m.visited| - 1]
    ensures OnTrack(plan, start, Choose(plan, m))
    decreases |plan.nodes| + 1 - |m.visited|, 4, 0
  {
    var candidates := Candidates(plan.edges, |plan.edges|, m.current.id);
    CandidatesAre(plan.edges, |plan.edges|, m.current.id);
    var sorted := plan.sorter(candidates);
    assert SortOf(candidates, sorted);
    forall e | e in sorted ensures e in candidates {
      assert e in multiset(sorted) && multiset(sorted) == multiset(candidates);
    }
    ScanOnTrack(plan, start, m, sorted, "");
  }

  lemma {:induction false} ScanOnTrack(plan: Plan, start: string, m: Memory, edges: seq<Edge>, fallback: string)
    requires ValidPlan(plan, start) && OnPath(plan, start, m.visited) && m.current == m.visited[|m.visited| - 1]
    requires Leave(plan.edges, edges, m.current.id)
    requires fallback == "" || HasArc(Arcs(plan.edges), m.current.id, fallback)
    ensures OnTrack(plan, start, Scan(plan, m, edges, fallback))
    decreases |plan.nodes| + 1 - |m.visited|, 3, |edges|
  {
    if edges == [] {
      if fallback != "" {
        FollowOnTrack(plan, start, m, fallback);
      } else {
        UndoOnTrack(plan, start, m, m.completed, NoMatchingEdge);
      }
    } else if edges[0].condition == "" {
      ArcsAreEdges(plan.edges);
      ScanOnTrack(plan, start, m, edges[1..], if fallback == "" then edges[0].target else fallback);
    }
  }

  lemma {:induction false} FollowOnTrack(plan: Plan, start: string, m: Memory, target: string)
    requires ValidPlan(plan, start) && OnPath(plan, start, m.visited) && m.current == m.visited[|m.visited| - 1]
    requires HasArc(Arcs(plan.edges), m.current.id, target)
    ensures OnTrack(plan, start, Follow(plan, m, target))
    decreases |plan.nodes| + 1 - |m.visited|, 2, 0
  {
    EdgesStayInside(plan.nodes, plan.edges, m.current.id, target);
    EnterOnTrack(plan, start, m, plan.nodes[target]);
  }

  lemma DecideOnTrack(plan: Plan, start: string, m: Memory, signal: Signal)
    requires ValidPlan(plan, start) && OnPath(plan, start, m.visited) && m.current == m.visited[|m.visited| - 1]
    ensures OnTrack(plan, start, Decide(plan, m, signal))
  {
    var m' := m.(lastOutput := DefaultJson(signal.output));
    ChooseOnTrack(plan, start, m');
    UndoOnTrack(plan, start, m', m.completed, InvalidDecision);
  }

  lemma CreationReplyOnTrack(plan: Plan, start: string, machine: Machine, reply: Reply)
    requires ValidPlan(plan, start) && OnTrack(plan, start, machine) && machine.stage.Asking?
    requires machine.stage.place.Creating?
    ensures OnTrack(plan, start, Resume(plan, machine, reply))
  {
    var m := machine.memory.(log := machine.memory.log + [Exchange(machine.stage.call, reply)]);
    UndoOnTrack(plan, start, m, m.completed, TaskNotCreated(m.current.id));
  }

  lemma DecisionReplyOnTrack(plan: Plan, start: string, machine: Machine, reply: Reply)
    requires ValidPlan(plan, start) && OnTrack(plan, start, machine) && machine.stage.Asking?
    requires machine.stage.place.Awaiting?
    ensures OnTrack(plan, start, Resume(plan, machine, reply))
  {
    var m := machine.memory.(log := machine.memory.log + [Exchange(machine.stage.call, reply)]);
    if reply.Received? {
      DecideOnTrack(plan, start, m, reply.signal);
    } else {
      UndoOnTrack(plan, start, m, m.completed, if reply == TimedOut then ApprovalTimeout else WaitFailed(m.current.id));
    }
  }

  lemma TimerReplyOnTrack(plan: Plan, start: string, machine: Machine, reply: Reply)
    requires ValidPlan(plan, start) && OnTrack(plan, start, machine) && machine.stage.Asking?
    requires machine.stage.place.Sleeping?
    ensures OnTrack(plan, start, Resume(plan, machine, reply))
  {
    var m := machine.memory.(log := machine.memory.log + [Exchange(machine.stage.call, reply)]);
    UndoOnTrack(plan, start, m, m.completed, TimerFailed(m.current.id));
    ChooseOnTrack(plan, start, m);
  }

  lemma ServiceReplyOnTrack(plan: Plan, start: string, machine: Machine, reply: Reply)
    requires ValidPlan(plan, start) && OnTrack(plan, start, machine) && machine.stage.Asking?
    requires machine.stage.place.Invoking?
    ensures OnTrack(plan, start, Resume(plan, machine, reply))
  {
    var m := machine.memory.(log := machine.memory.log + [Exchange(machine.stage.call, reply)]);
    if reply.Output? {
      ChooseOnTrack(plan, start, m.(lastOutput := DefaultJson(reply.json), completed := m.completed + [m.current]));
    } else {
      UndoOnTrack(plan, start, m, m.completed, InvokeFailed(m.current.id));
    }
  }

  lemma ResumeOnTrack(plan: Plan, start: string, machine: Machine, reply: Reply)
    requires ValidPlan(plan, start) && OnTrack(plan, start, machine)
    ensures OnTrack(plan, start, Resume(plan, machine, reply))
  {
    if machine.stage.Asking? {
      var m := machine.memory.(log := machine.memory.log + [Exchange(machine.stage.call, reply)]);
      match machine.stage.place
      case Creating => CreationReplyOnTrack(plan, start, machine, reply);
      case Awaiting => DecisionReplyOnTrack(plan, start, machine, reply);
      case Invoking => ServiceReplyOnTrack(plan, start, machine, reply);
      case Sleeping => TimerReplyOnTrack(plan, start, machine, reply);
      case Evaluating(edge, rest, fallback) =>
        if !reply.Truth? {
          UndoOnTrack(plan, start, m, m.completed, ConditionFailed);
        } else if reply.holds {
          ArcsAreEdges(plan.edges);
          FollowOnTrack(plan, start, m, edge.target);
        } else {
          ScanOnTrack(plan, start, m, rest, fallback);
        }
      case Finishing => UndoOnTrack(plan, start, m, m.completed, FinishFailed);
      case Compensating(left, error) => UndoOnTrack(plan, start, m, left, error);
      case Reporting(error) =>
    }
  }

  /** An input that carries an accepted graph. */
  ghost predicate ValidInput(isJson: string -> bool, input: Input) {
    && input.instanceId != "" && input.tenantId != "" && input.applicationId != ""
    && exists key, name :: ValidDefinition(isJson, key, name, input.nodes, input.edges)
  }

  lemma ValidInputIsAdmitted(isJson: string -> bool, sorter: seq<Edge> -> seq<Edge>, input: Input)
    returns (start: string)
    requires ValidInput(isJson, input) && IsSorter(sorter)
    ensures Admitted(input) && LastStart(input.nodes).value.id == start
    ensures ValidPlan(PlanOf(sorter, input), start) && Index(input.nodes)[start] == LastStart(input.nodes).value
  {
    var nodes := input.nodes;
    start := IndexedStart(nodes);
    IndexFacts(nodes);
    IndexOfDistinct(nodes);
    LastStartIsStart(nodes, Index(nodes)[start]);
    IdsAreIdentifiers(isJson, nodes);
    forall id | id in Index(nodes) ensures id != "" && !Index(nodes)[id].kind.OtherType? {
      assert ValidNode(isJson, Index(nodes)[id]);
    }
  }

  lemma {:induction false} LastStartIsStart(nodes: seq<Node>, n: Node)
    requires n in nodes && n.kind == Start && forall k | k in nodes && k.kind == Start :: k == n
    ensures LastStart(nodes) == Some(n)
  {
    var front, last := nodes[..|nodes| - 1], nodes[|nodes| - 1];
    assert nodes == front + [last];
    if last.kind != Start {
      LastStartIsStart(front, n);
    }
  }

  lemma {:induction false} ReplayOnTrack(isJson: string -> bool, sorter: seq<Edge> -> seq<Edge>, input: Input,
                                         history: seq<Reply>)
    returns (start: string)
    requires ValidInput(isJson, input) && IsSorter(sorter)
    ensures Admitted(input) && ValidPlan(PlanOf(sorter, input), start) && LastStart(input.nodes).value.id == start
    ensures OnTrack(PlanOf(sorter, input), start, Replay(sorter, input, history))
  {
    start := ValidInputIsAdmitted(isJson, sorter, input);
    if history == [] {
      var node := LastStart(input.nodes).value;
      EnterOnTrack(PlanOf(sorter, input), start, Blank(node), node);
    } else {
      var start' := ReplayOnTrack(isJson, sorter, input, history[..|history| - 1]);
      ResumeOnTrack(PlanOf(sorter, input), start, Replay(sorter, input, history[..|history| - 1]),
                    history[|history| - 1]);
    }
  }

  /**
   Path law.  On an accepted graph a run follows a path from the start node, visits no node twice, visits at most
   as many nodes as there are, and never ends with an invalid workflow, graph, edge or node.
   */
  lemma PathLaw(isJson: string -> bool, sorter: seq<Edge> -> seq<Edge>, input: Input, history: seq<Reply>)
    requires ValidInput(isJson, input) && IsSorter(sorter)
    ensures var Machine(m, stage) := Replay(sorter, input, history);
            && IsPath(Arcs(input.edges), Ids(m.visited)) && m.visited[0].kind == Start
            && Distinct(Ids(m.visited)) && |m.visited| <= |input.nodes|
            && (stage.Ended? && stage.outcome.Raised? ==> !IsGraphError(stage.outcome.error))
  {
    var start := ReplayOnTrack(isJson, sorter, input, history);
    var m := Replay(sorter, input, history).memory;
    var plan := PlanOf(sorter, input);
    assert m.visited[0] in m.visited && Ids(m.visited)[0] == m.visited[0].id;
    PathsAreShort(plan.nodes, plan.edges, Ids(m.visited));
    IndexOfDistinct(input.nodes);
  }

  // ---------- no request is made twice ----------

  lemma {:induction false} WorkloadOnce(visited: seq<Node>)
    requires Distinct(Ids(visited))
    ensures Distinct(Ids(Workload(visited))) && forall n | n in Workload(visited) :: n in visited
  {
    if visited != [] {
      var front, last := visited[..|visited| - 1], visited[|visited| - 1];
      var ids := Ids(visited);
      assert Ids(front) == ids[..|ids| - 1];
      DistinctFront(ids);
      WorkloadOnce(front);
      var load := Workload(front);
      if last.kind in {Approval, ServiceTask} {
        assert last.id !in Ids(load) by {
          forall k | 0 <= k < |load| ensures load[k].id != last.id {
            assert load[k] in load;
            var j :| 0 <= j < |front| && front[j] == load[k];
            assert Ids(front)[j] == load[k].id;
          }
        }
        assert Ids(load + [last]) == Ids(load) + [last.id];
        DistinctAppend(Ids(load), last.id);
      } else {
        assert load + [] == load;
      }
    }
  }

  lemma {:induction false} RequestAt(log: seq<Exchange>, i: nat) returns (p: nat)
    requires i < |log| && IsRequest(log[i].call)
    ensures p < |Requested(log)| && Requested(log)[p] == log[i].call.node
    ensures Requested(log[..i]) <= Requested(log) && p == |Requested(log[..i])|
  {
    var front := log[..|log| - 1];
    if i == |log| - 1 {
      p := |Requested(front)|;
    } else {
      p := RequestAt(front, i);
      assert front[..i] == log[..i];
    }
  }

  /** Two requests in one log stand at two places of the list of requested nodes. */
  lemma RequestsApart(log: seq<Exchange>, i: nat, j: nat) returns (p: nat, q: nat)
    requires i < j < |log| && IsRequest(log[i].call) && IsRequest(log[j].call)
    ensures p < q < |Requested(log)| && Requested(log)[p] == log[i].call.node && Requested(log)[q] == log[j].call.node
  {
    q := RequestAt(log, j);
    p := RequestAt(log[..j], i);
  }

  /** On an accepted graph no task is created and no service invoked for the same node by two calls of a run. */
  lemma RequestOnceLaw(isJson: string -> bool, sorter: seq<Edge> -> seq<Edge>, input: Input, history: seq<Reply>,
                       i: nat, j: nat)
    requires ValidInput(isJson, input) && IsSorter(sorter)
    requires i < j < |Replay(sorter, input, history).memory.log|
    requires var log := Replay(sorter, input, history).memory.log; IsRequest(log[i].call) && IsRequest(log[j].call)
    ensures var log := Replay(sorter, input, history).memory.log; log[i].call.node.id != log[j].call.node.id
  {
    var m := Replay(sorter, input, history).memory;
    ReplayIsSound(sorter, input, history);
    PathLaw(isJson, sorter, input, history);
    WorkloadOnce(m.visited);
    var p, q := RequestsApart(m.log, i, j);
    var load := Workload(m.visited);
    assert load[p] == Requested(m.log)[p] && load[q] == Requested(m.log)[q];
    assert Differ(Ids(load), p, q);
  }

  lemma {:induction false} ServiceAnswered(log: seq<Exchange>, n: Node) returns (j: nat)
    requires n in Services(log)
    ensures j < |log| && log[j].call == Invoke(n) && log[j].reply.Output?
  {
    var front, last := log[..|log| - 1], log[|log| - 1];
    if last.call == Invoke(n) && last.reply.Output? {
      j := |log| - 1;
    } else {
      j := ServiceAnswered(front, n);
    }
  }

  lemma {:induction false} UndoneWereDone(services: seq<Node>)
    ensures forall n :: n in Reversed(Compensable(services)) <==> n in services && n.compensationMethod != ""
  {
    if services != [] {
      var front, last := services[..|services| - 1], services[|services| - 1];
      assert services == front + [last];
      UndoStep(services);
      UndoneWereDone(front);
    }
  }

  lemma CompensatedAnswered(log: seq<Exchange>, n: Node) returns (j: nat)
    requires Compensated(log) in {[], Reversed(Compensable(Services(log)))} && n in Compensated(log)
    ensures j < |log| && log[j].call == Invoke(n) && log[j].reply.Output?
  {
    UndoneWereDone(Services(log));
    j := ServiceAnswered(log, n);
  }

  /** The service whose failure ends a run is not compensated: only services that answered are. */
  lemma FailedServiceLaw(isJson: string -> bool, sorter: seq<Edge> -> seq<Edge>, input: Input, history: seq<Reply>,
                         i: nat)
    requires ValidInput(isJson, input) && IsSorter(sorter)
    requires Replay(sorter, input, history).stage.Ended? && i < |Replay(sorter, input, history).memory.log|
    requires var x := Replay(sorter, input, history).memory.log[i]; x.call.Invoke? && !x.reply.Output?
    ensures var log := Replay(sorter, input, history).memory.log; log[i].call.node !in Compensated(log)
  {
    var start := ValidInputIsAdmitted(isJson, sorter, input);
    SagaLaw(sorter, input, history);
    var log := Replay(sorter, input, history).memory.log;
    if log[i].call.node in Compensated(log) {
      var j := CompensatedAnswered(log, log[i].call.node);
      InvokedOnce(isJson, sorter, input, history, i, j);
    }
  }

  lemma InvokedOnce(isJson: string -> bool, sorter: seq<Edge> -> seq<Edge>, input: Input, history: seq<Reply>,
                    i: nat, j: nat)
    requires ValidInput(isJson, input) && IsSorter(sorter)
    requires var log := Replay(sorter, input, history).memory.log;
             i < |log| && j < |log| && log[i].call == log[j].call && log[i].call.Invoke?
    ensures i == j
  {
    if i < j {
      RequestOnceLaw(isJson, sorter, input, history, i, j);
    } else if j < i {
      RequestOnceLaw(isJson, sorter, input, history, j, i);
    }
  }
}
