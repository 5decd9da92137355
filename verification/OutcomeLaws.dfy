/** What a run works with and why it ends: its outputs, its timers, its errors and the checks at its beginning. */
module OutcomeLaws {
  import opened Model
  import opened Runtime
  import opened RuntimeLaws

  // ---------- reading a log ----------

  /**
   The output to go on with: that of the last service that answered or of the last decision that was taken, whichever is
   later, where no text stands for the empty object; and the empty object before both.
   */
  function LastOutput(log: seq<Exchange>): string {
    if log == [] then "{}" else
    var last := log[|log| - 1];
    if last.call.Invoke? && last.reply.Output? then (if last.reply.json == "" then "{}" else last.reply.json)
    else if TakesSignal(last) then (if last.reply.signal.output == "" then "{}" else last.reply.signal.output)
    else LastOutput(log[..|log| - 1])
  }

  /** A condition is evaluated over this output, and a finish reports it. */
  predicate Carries(call: Call, output: string) {
    && (call.Evaluate? ==> call.lastOutput == output)
    && (call.Finish? ==> call.result == output)
  }

  predicate AllCarry(log: seq<Exchange>) {
    forall i {:trigger log[i]} | 0 <= i < |log| :: Carries(log[i].call, LastOutput(log[..i]))
  }

  /** The timers that ran out, in order. */
  function Slept(log: seq<Exchange>): seq<Node> {
    if log == [] then [] else
    var last := log[|log| - 1];
    Slept(log[..|log| - 1]) + (if last.call.Sleep? && last.reply == Done then [last.call.node] else [])
  }

  /** The timer nodes among the visited ones, in order. */
  function TimerNodes(visited: seq<Node>): seq<Node> {
    if visited == [] then [] else
    var last := visited[|visited| - 1];
    TimerNodes(visited[..|visited| - 1]) + (if last.kind == Timer then [last] else [])
  }

  /** The forward run goes on after this exchange. */
  predicate Well(x: Exchange) {
    match x.call
    case CreateTask(_) => x.reply == Done
    case AwaitDecision(_) =>
      x.reply.Received? && (TakesSignal(x) ==> x.reply.signal.decision in {Approve, Reject})
    case Invoke(_) => x.reply.Output?
    case Sleep(_) => x.reply == Done
    case Evaluate(_, _) => x.reply.Truth?
    case Finish(_, _, cause) => cause.None? && x.reply == Done
    case Compensate(_) => false
  }

  predicate AllWell(log: seq<Exchange>) {
    forall i | 0 <= i < |log| :: Well(log[i])
  }

  predicate BelongsToUndoing(call: Call) {
    call.Compensate? || (call.Finish? && call.cause.Some?)
  }

  /** The log without the compensations and the report of the failure at its end. */
  function ForwardPart(log: seq<Exchange>): (f: seq<Exchange>)
    ensures f <= log && forall i | |f| <= i < |log| :: BelongsToUndoing(log[i].call)
  {
    if log != [] && BelongsToUndoing(log[|log| - 1].call) then ForwardPart(log[..|log| - 1]) else log
  }

  /** The error that a failed exchange stands for. */
  function ErrorOf(x: Exchange): RunError
    requires !BelongsToUndoing(x.call)
  {
    match x.call
    case CreateTask(n) => TaskNotCreated(n.id)
    case AwaitDecision(n) =>
      if x.reply == TimedOut then ApprovalTimeout else if x.reply.Received? then InvalidDecision else WaitFailed(n.id)
    case Invoke(n) => InvokeFailed(n.id)
    case Sleep(n) => TimerFailed(n.id)
    case Evaluate(_, _) => ConditionFailed
    case Finish(_, _, _) => FinishFailed
  }

  /** What of the graph is wrong when no exchange has failed. */
  predicate IsGraphFault(plan: Plan, visited: seq<Node>, current: Node, error: RunError) {
    match error
    case InvalidGraph => |visited| == |plan.nodes| + 1
    case InvalidNode => current.kind.OtherType?
    case InvalidEdge => current.kind != End
    case NoMatchingEdge => current.kind != End
    case _ => false
  }

  /**
   The error is that of the last exchange of the forward run, the only one that failed; or none failed, and the graph is
   at fault.
   */
  predicate Explains(plan: Plan, f: seq<Exchange>, visited: seq<Node>, current: Node, error: RunError) {
    if f != [] && !Well(f[|f| - 1]) then
      AllWell(f[..|f| - 1]) && !BelongsToUndoing(f[|f| - 1].call) && error == ErrorOf(f[|f| - 1])
    else
      AllWell(f) && IsGraphFault(plan, visited, current, error)
  }

  lemma LogMore(log: seq<Exchange>, x: Exchange)
    ensures LastOutput(log + [x]) ==
            if x.call.Invoke? && x.reply.Output? then DefaultJson(x.reply.json)
            else if TakesSignal(x) then DefaultJson(x.reply.signal.output) else LastOutput(log)
    ensures Slept(log + [x]) == Slept(log) + (if x.call.Sleep? && x.reply == Done then [x.call.node] else [])
    ensures AllWell(log + [x]) <==> AllWell(log) && Well(x)
    ensures ForwardPart(log + [x]) == if BelongsToUndoing(x.call) then ForwardPart(log) else log + [x]
  {
    assert (log + [x])[..|log|] == log;
    assert AllWell(log + [x]) ==> Well((log + [x])[|log|]) && forall i | 0 <= i < |log| :: Well((log + [x])[i]);
  }

  lemma CarryMore(log: seq<Exchange>, x: Exchange)
    requires AllCarry(log) && Carries(x.call, LastOutput(log))
    ensures AllCarry(log + [x])
  {
    forall i | 0 <= i < |log + [x]| ensures Carries((log + [x])[i].call, LastOutput((log + [x])[..i])) {
      assert (log + [x])[..i] == log[..i];
      assert log[..|log|] == log;
    }
  }

  // ---------- the invariant ----------

  /** The output at hand is the last one, and every call so far carried the one of its time. */
  predicate Remembers(m: Memory) {
    m.lastOutput == LastOutput(m.log) && AllCarry(m.log)
  }

  /** No exchange has failed, and every timer on the way has run out. */
  predicate Ahead(plan: Plan, m: Memory) {
    && Remembers(m) && AllWell(m.log) && Slept(m.log) == TimerNodes(m.visited) && |m.visited| <= |plan.nodes| + 1
  }

  predicate Resting(plan: Plan, m: Memory) {
    && Remembers(m) && AllWell(m.log) && Slept(m.log) + [m.current] == TimerNodes(m.visited)
    && |m.visited| <= |plan.nodes| + 1
  }

  predicate Failing(plan: Plan, m: Memory, error: RunError) {
    Remembers(m) && Explains(plan, ForwardPart(m.log), m.visited, m.current, error)
  }

  predicate Explained(plan: Plan, machine: Machine) {
    var m := machine.memory;
    match machine.stage
    case Asking(call, place) =>
      && Carries(call, m.lastOutput)
      && (match place
          case Creating => call == CreateTask(m.current) && m.current.kind == Approval && Ahead(plan, m)
          case Awaiting => call == AwaitDecision(m.current) && m.current.kind == Approval && Ahead(plan, m)
          case Invoking => call == Invoke(m.current) && m.current.kind == ServiceTask && Ahead(plan, m)
          case Sleeping => call == Sleep(m.current) && m.current.kind == Timer && Resting(plan, m)
          case Evaluating(_, _, _) => call.Evaluate? && m.current.kind != End && Ahead(plan, m)
          case Finishing => call.Finish? && call.cause.None? && Ahead(plan, m)
          case Compensating(_, error) => call.Compensate? && Failing(plan, m, error)
          case Reporting(error) => call.Finish? && call.cause == Some(error) && Failing(plan, m, error))
    case Ended(Returned(_, result)) => result == m.lastOutput && Ahead(plan, m)
    case Ended(Raised(error)) => if m.log == [] then error == InvalidWorkflow else Failing(plan, m, error)
  }

  lemma {:induction false} UndoExplained(plan: Plan, m: Memory, left: seq<Node>, error: RunError)
    requires Failing(plan, m, error)
    ensures Explained(plan, Undo(m, left, error))
  {
    if left != [] {
      UndoExplained(plan, m, left[..|left| - 1], error);
    }
  }

  /** A fault of the graph while all is well. */
  lemma FaultExplained(plan: Plan, m: Memory, error: RunError)
    requires Ahead(plan, m) && IsGraphFault(plan, m.visited, m.current, error)
    ensures Explained(plan, Fail(m, error))
  {
    assert ForwardPart(m.log) == m.log by {
      assert m.log != [] ==> Well(m.log[|m.log| - 1]);
    }
    UndoExplained(plan, m, m.completed, error);
  }

  /** A failed exchange after others that went well. */
  lemma FailureExplained(plan: Plan, before: Memory, m: Memory, x: Exchange)
    requires Remembers(before) && AllWell(before.log) && Carries(x.call, before.lastOutput)
    requires !Well(x) && !BelongsToUndoing(x.call)
    requires m.log == before.log + [x] && m.lastOutput == LastOutput(m.log)
    ensures Explained(plan, Fail(m, ErrorOf(x)))
  {
    LogMore(before.log, x);
    CarryMore(before.log, x);
    assert m.log[..|before.log|] == before.log;
    UndoExplained(plan, m, m.completed, ErrorOf(x));
  }

  lemma {:induction false} EnterExplained(plan: Plan, m0: Memory, node: Node)
    requires Ahead(plan, m0)
    ensures Explained(plan, Enter(plan, m0, node))
    decreases |plan.nodes| + 1 - |m0.visited|, 1, 0
  {
    if |m0.visited| > |plan.nodes| {
      FaultExplained(plan, m0, InvalidGraph);
    } else {
      var m := m0.(current := node, visited := m0.visited + [node]);
      assert m.visited[..|m0.visited|] == m0.visited;
      match node.kind
      case Start => ChooseExplained(plan, m);
      case OtherType(_) => FaultExplained(plan, m, InvalidNode);
      case Timer => assert Resting(plan, m);
      case _ => assert Ahead(plan, m);
    }
  }

  lemma {:induction false} ChooseExplained(plan: Plan, m: Memory)
    requires Ahead(plan, m) && m.current.kind != End
    ensures Explained(plan, Choose(plan, m))
    decreases |plan.nodes| + 1 - |m.visited|, 4, 0
  {
    ScanExplained(plan, m, plan.sorter(Candidates(plan.edges, |plan.edges|, m.current.id)), "");
  }

  lemma {:induction false} ScanExplained(plan: Plan, m: Memory, edges: seq<Edge>, fallback: string)
    requires Ahead(plan, m) && m.current.kind != End
    ensures Explained(plan, Scan(plan, m, edges, fallback))
    decreases |plan.nodes| + 1 - |m.visited|, 3, |edges|
  {
    if edges == [] {
      if fallback != "" {
        FollowExplained(plan, m, fallback);
      } else {
        FaultExplained(plan, m, NoMatchingEdge);
      }
    } else if edges[0].condition == "" {
      ScanExplained(plan, m, edges[1..], if fallback == "" then edges[0].target else fallback);
    }
  }

  lemma {:induction false} FollowExplained(plan: Plan, m: Memory, target: string)
    requires Ahead(plan, m) && m.current.kind != End
    ensures Explained(plan, Follow(plan, m, target))
    decreases |plan.nodes| + 1 - |m.visited|, 2, 0
  {
    if target in plan.nodes {
      EnterExplained(plan, m, plan.nodes[target]);
    } else {
      FaultExplained(plan, m, InvalidEdge);
    }
  }

  // ---------- replies ----------

  /** The memory once the reply is in the log. */
  function Noted(machine: Machine, reply: Reply): Memory
    requires machine.stage.Asking?
  {
    machine.memory.(log := machine.memory.log + [Exchange(machine.stage.call, reply)])
  }

  /** A failed reply in the forward run. */
  lemma RefusalExplained(plan: Plan, machine: Machine, reply: Reply)
    requires Explained(plan, machine) && machine.stage.Asking?
    requires !machine.stage.place.Compensating? && !machine.stage.place.Reporting?
    requires !Well(Exchange(machine.stage.call, reply))
    requires TakesSignal(Exchange(machine.stage.call, reply)) ==> reply.signal.decision.OtherDecision?
    ensures Explained(plan, Resume(plan, machine, reply))
  {
    var x := Exchange(machine.stage.call, reply);
    var m := Noted(machine, reply);
    LogMore(machine.memory.log, x);
    if TakesSignal(x) {
      FailureExplained(plan, machine.memory, m.(lastOutput := DefaultJson(reply.signal.output)), x);
    } else {
      FailureExplained(plan, machine.memory, m, x);
      RefusalFails(plan, machine, reply);
    }
  }

  lemma RefusalFails(plan: Plan, machine: Machine, reply: Reply)
    requires Explained(plan, machine) && machine.stage.Asking?
    requires !machine.stage.place.Compensating? && !machine.stage.place.Reporting?
    requires !Well(Exchange(machine.stage.call, reply)) && !TakesSignal(Exchange(machine.stage.call, reply))
    ensures Resume(plan, machine, reply) == Fail(Noted(machine, reply), ErrorOf(Exchange(machine.stage.call, reply)))
  {
  }

  lemma DecisionExplained(plan: Plan, machine: Machine, reply: Reply)
    requires Explained(plan, machine) && machine.stage.Asking? && machine.stage.place.Awaiting?
    requires Well(Exchange(machine.stage.call, reply))
    ensures Explained(plan, Resume(plan, machine, reply))
  {
    var x := Exchange(machine.stage.call, reply);
    var m := Noted(machine, reply);
    LogMore(machine.memory.log, x);
    CarryMore(machine.memory.log, x);
    if TakesSignal(x) && reply.signal.decision == Approve {
      ChooseExplained(plan, m.(lastOutput := DefaultJson(reply.signal.output)));
    }
  }

  lemma SuccessExplained(plan: Plan, machine: Machine, reply: Reply)
    requires Explained(plan, machine) && machine.stage.Asking? && !machine.stage.place.Awaiting?
    requires Well(Exchange(machine.stage.call, reply))
    ensures Explained(plan, Resume(plan, machine, reply))
  {
    var x := Exchange(machine.stage.call, reply);
    var m := Noted(machine, reply);
    LogMore(machine.memory.log, x);
    CarryMore(machine.memory.log, x);
    match machine.stage.place
    case Invoking =>
      ChooseExplained(plan, m.(lastOutput := DefaultJson(reply.json), completed := m.completed + [m.current]));
    case Sleeping => ChooseExplained(plan, m);
    case Evaluating(edge, rest, fallback) =>
      if reply.holds {
        FollowExplained(plan, m, edge.target);
      } else {
        ScanExplained(plan, m, rest, fallback);
      }
    case _ =>
  }

  /** A compensation, or the report of the failure, does not change what failed. */
  lemma StillFailing(plan: Plan, m: Memory, x: Exchange, error: RunError)
    requires Failing(plan, m, error) && BelongsToUndoing(x.call) && Carries(x.call, m.lastOutput)
    ensures Failing(plan, m.(log := m.log + [x]), error)
  {
    LogMore(m.log, x);
    CarryMore(m.log, x);
  }

  lemma CompensationExplained(plan: Plan, machine: Machine, reply: Reply)
    requires Explained(plan, machine) && machine.stage.Asking? && machine.stage.place.Compensating?
    ensures Explained(plan, Resume(plan, machine, reply))
  {
    var error := machine.stage.place.error;
    StillFailing(plan, machine.memory, Exchange(machine.stage.call, reply), error);
    UndoExplained(plan, Noted(machine, reply), machine.stage.place.left, error);
  }

  lemma ReportExplained(plan: Plan, machine: Machine, reply: Reply)
    requires Explained(plan, machine) && machine.stage.Asking? && machine.stage.place.Reporting?
    ensures Explained(plan, Resume(plan, machine, reply))
  {
    StillFailing(plan, machine.memory, Exchange(machine.stage.call, reply), machine.stage.place.error);
  }

  lemma ResumeExplained(plan: Plan, machine: Machine, reply: Reply)
    requires Explained(plan, machine)
    ensures Explained(plan, Resume(plan, machine, reply))
  {
    if machine.stage.Asking? {
      if machine.stage.place.Compensating? {
        CompensationExplained(plan, machine, reply);
      } else if machine.stage.place.Reporting? {
        ReportExplained(plan, machine, reply);
      } else if !Well(Exchange(machine.stage.call, reply)) {
        RefusalExplained(plan, machine, reply);
      } else if machine.stage.place.Awaiting? {
        DecisionExplained(plan, machine, reply);
      } else {
        SuccessExplained(plan, machine, reply);
      }
    }
  }

  lemma {:induction false} ReplayExplained(sorter: seq<Edge> -> seq<Edge>, input: Input, history: seq<Reply>)
    ensures Explained(PlanOf(sorter, input), Replay(sorter, input, history))
  {
    var plan := PlanOf(sorter, input);
    if history == [] {
      if Admitted(input) {
        EnterExplained(plan, Blank(LastStart(input.nodes).value), LastStart(input.nodes).value);
      }
    } else {
      ReplayExplained(sorter, input, history[..|history| - 1]);
      ResumeExplained(plan, Replay(sorter, input, history[..|history| - 1]), history[|history| - 1]);
    }
  }

  // ---------- the laws ----------

  /**
   Output law.  Every condition is evaluated over, and every finish reports, the output of the last answered service or
   taken decision before it; a run that returns returns that output.
   */
  lemma OutputLaw(sorter: seq<Edge> -> seq<Edge>, input: Input, history: seq<Reply>)
    ensures var Machine(m, stage) := Replay(sorter, input, history);
            && (forall i {:trigger m.log[i]} | 0 <= i < |m.log| ::
                  var call := m.log[i].call;
                  && (call.Evaluate? ==> call.lastOutput == LastOutput(m.log[..i]))
                  && (call.Finish? ==> call.result == LastOutput(m.log[..i])))
            && (stage.Asking? && stage.call.Evaluate? ==> stage.call.lastOutput == LastOutput(m.log))
            && (stage.Asking? && stage.call.Finish? ==> stage.call.result == LastOutput(m.log))
            && (stage.Ended? && stage.outcome.Returned? ==> stage.outcome.result == LastOutput(m.log))
  {
    ReplayExplained(sorter, input, history);
  }

  /** A run that returns has slept through every timer on its way, in order, and none of its exchanges has failed. */
  lemma TimerLaw(sorter: seq<Edge> -> seq<Edge>, input: Input, history: seq<Reply>)
    requires Replay(sorter, input, history).stage.Ended? && Replay(sorter, input, history).stage.outcome.Returned?
    ensures var m := Replay(sorter, input, history).memory;
            Slept(m.log) == TimerNodes(m.visited) && AllWell(m.log)
  {
    ReplayExplained(sorter, input, history);
  }

  /**
   Error law.  The error a run raises is that of its last forward exchange, which is the only one that failed; when none
   has failed, it is a fault of the graph, and an invalid graph only after one more node than there are.
   */
  lemma ErrorLaw(sorter: seq<Edge> -> seq<Edge>, input: Input, history: seq<Reply>)
    requires Replay(sorter, input, history).stage.Ended? && Replay(sorter, input, history).stage.outcome.Raised?
    requires Admitted(input)
    ensures var Machine(m, Ended(Raised(error))) := Replay(sorter, input, history);
            Explains(PlanOf(sorter, input), ForwardPart(m.log), m.visited, m.current, error)
  {
    ReplayExplained(sorter, input, history);
    AdmittedRunsAsk(sorter, input, history);
  }

  /** A run refuses its input if and only if an identifier or the start node is missing; then it makes no exchange. */
  lemma AdmissionLaw(sorter: seq<Edge> -> seq<Edge>, input: Input, history: seq<Reply>)
    ensures Replay(sorter, input, history).stage == Ended(Raised(InvalidWorkflow))
            <==> input.instanceId == "" || input.tenantId == "" || input.applicationId == ""
                 || LastStart(input.nodes).None? || LastStart(input.nodes).value.id == ""
    ensures Replay(sorter, input, history).stage == Ended(Raised(InvalidWorkflow))
            ==> Replay(sorter, input, history).memory.log == []
  {
    if Admitted(input) {
      ReplayExplained(sorter, input, history);
      AdmittedRunsAsk(sorter, input, history);
      NeverInvalidLater(PlanOf(sorter, input), Replay(sorter, input, history));
    } else {
      assert history[..0] == [];
      EndedStays(sorter, input, history, 0);
    }
  }

  lemma NeverInvalidLater(plan: Plan, machine: Machine)
    requires Explained(plan, machine) && (machine.stage.Asking? || machine.memory.log != [])
    ensures machine.stage != Ended(Raised(InvalidWorkflow))
  {
  }

  /** The start of a run is a start node of its input, and there is one unless the input has none. */
  lemma {:induction false} StartIs(nodes: seq<Node>)
    ensures LastStart(nodes).Some? <==> exists n :: n in nodes && n.kind == Start
    ensures LastStart(nodes).Some? ==> LastStart(nodes).value in nodes && LastStart(nodes).value.kind == Start
  {
    if nodes != [] {
      var front, last := nodes[..|nodes| - 1], nodes[|nodes| - 1];
      assert nodes == front + [last];
      StartIs(front);
    }
  }
}
