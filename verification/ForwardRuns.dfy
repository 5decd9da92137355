/** On an accepted graph every good reply takes a run one step nearer to its end. */
module ForwardRuns {
  import opened Model
  import opened Graph
  import opened Kahn
  import opened Validation
  import opened Runtime
  import opened RuntimeLaws
  import opened OutcomeLaws

  /** The run is in its loop over nodes: it neither compensates nor reports a failure, and has not ended. */
  predicate IsForward(machine: Machine) {
    machine.stage.Asking? && !machine.stage.place.Compensating? && !machine.stage.place.Reporting?
  }

  function PlaceRank(place: Place): nat {
    match place
    case Creating => 3
    case Invoking => 3
    case Sleeping => 3
    case Awaiting => 2
    case Evaluating(_, _, _) => 1
    case _ => 0
  }

  /** A bound on the good replies that a forward run still needs. */
  function Rank(plan: Plan, machine: Machine): nat {
    (if |machine.memory.visited| <= |plan.nodes| then 4 * (|plan.nodes| - |machine.memory.visited|) else 0)
    + (if machine.stage.Asking? then PlaceRank(machine.stage.place) else 0)
  }

  /** The run has stopped at a condition, or at the next node. */
  predicate GoesOn(before: Memory, machine: Machine) {
    && machine.stage.Asking? && machine.memory.status == before.status
    && ((machine.stage.place.Evaluating? && machine.memory.visited == before.visited)
        || (|machine.memory.visited| == |before.visited| + 1
            && (machine.stage.place.Creating? || machine.stage.place.Invoking? || machine.stage.place.Sleeping?
                || machine.stage.place.Finishing?)))
  }

  /** A memory between two nodes of an accepted graph. */
  ghost predicate IsAt(plan: Plan, start: string, m: Memory) {
    && ValidPlan(plan, start) && OnPath(plan, start, m.visited) && m.current == m.visited[|m.visited| - 1]
  }

  lemma FollowGoesOn(plan: Plan, start: string, m: Memory, target: string)
    requires IsAt(plan, start, m) && HasArc(Arcs(plan.edges), m.current.id, target)
    ensures GoesOn(m, Follow(plan, m, target))
  {
    EdgesStayInside(plan.nodes, plan.edges, m.current.id, target);
    var node := plan.nodes[target];
    StepOnPath(plan, start, m.visited, node);
    assert Follow(plan, m, target) == AtNode(plan, m.(current := node, visited := m.visited + [node]));
  }

  lemma FollowStops(plan: Plan, start: string, m: Memory, target: string)
    requires IsAt(plan, start, m) && HasArc(Arcs(plan.edges), m.current.id, target)
    ensures Follow(plan, m, target).stage.Asking? && !Follow(plan, m, target).stage.place.Evaluating?
  {
    EdgesStayInside(plan.nodes, plan.edges, m.current.id, target);
    var node := plan.nodes[target];
    StepOnPath(plan, start, m.visited, node);
    assert Follow(plan, m, target) == AtNode(plan, m.(current := node, visited := m.visited + [node]));
  }

  lemma {:induction false} ScanGoesOn(plan: Plan, start: string, m: Memory, edges: seq<Edge>, fallback: string)
    requires IsAt(plan, start, m) && Leave(plan.edges, edges, m.current.id) && (edges != [] || fallback != "")
    requires fallback == "" || HasArc(Arcs(plan.edges), m.current.id, fallback)
    ensures GoesOn(m, Scan(plan, m, edges, fallback))
    decreases |edges|
  {
    if edges == [] {
      FollowGoesOn(plan, start, m, fallback);
    } else if edges[0].condition == "" {
      ArcsAreEdges(plan.edges);
      EdgesStayInside(plan.nodes, plan.edges, m.current.id, edges[0].target);
      ScanGoesOn(plan, start, m, edges[1..], if fallback == "" then edges[0].target else fallback);
    }
  }

  /** From a node that is no end the run always goes on. */
  lemma ChooseGoesOn(plan: Plan, start: string, m: Memory)
    requires IsAt(plan, start, m) && m.current.kind != End
    ensures GoesOn(m, Choose(plan, m))
  {
    var candidates := Candidates(plan.edges, |plan.edges|, m.current.id);
    CandidatesAre(plan.edges, |plan.edges|, m.current.id);
    assert plan.edges[..|plan.edges|] == plan.edges;
    var sorted := plan.sorter(candidates);
    assert SortOf(candidates, sorted);
    forall e | e in sorted ensures e in candidates {
      assert e in multiset(sorted) && multiset(sorted) == multiset(candidates);
    }
    assert Linked(plan.nodes, plan.edges, m.current.id);
    var e :| e in plan.edges && e.source == m.current.id;
    assert LeavesBy(plan.edges, e, m.current.id) && e in candidates;
    assert sorted != [] by {
      assert e in multiset(candidates) && multiset(sorted) == multiset(candidates);
    }
    ScanGoesOn(plan, start, m, sorted, "");
  }

  /** The reply that lets the run go on from where it waits. */
  predicate IsGood(machine: Machine, reply: Reply)
    requires IsForward(machine)
  {
    match machine.stage.place
    case Creating => reply == Done
    case Awaiting =>
      reply.Received? && reply.signal.nodeId == machine.memory.current.id && reply.signal.decision in {Approve, Reject}
    case Invoking => reply.Output?
    case Sleeping => reply == Done
    case Evaluating(_, _, _) => reply == Truth(true)
    case _ => reply == Done
  }

  /** A forward run over an accepted graph, with all that is known of it. */
  ghost predicate IsGoing(plan: Plan, start: string, machine: Machine) {
    && ValidPlan(plan, start) && OnTrack(plan, start, machine) && Sound(machine) && Explained(plan, machine)
    && IsForward(machine)
  }

  /** The run has come nearer to its end: it goes on, or has returned. */
  predicate IsNearer(plan: Plan, before: Machine, machine: Machine) {
    if before.stage.Asking? && before.stage.place.Finishing?
    then machine.stage == Ended(Returned(before.memory.status, before.memory.lastOutput))
    else IsForward(machine) && Rank(plan, machine) < Rank(plan, before)
  }

  /** How many nodes have been visited is no secret of the path. */
  lemma PathIsShort(plan: Plan, start: string, machine: Machine)
    requires ValidPlan(plan, start) && OnTrack(plan, start, machine)
    ensures |machine.memory.visited| <= |plan.nodes|
  {
    var visited := machine.memory.visited;
    assert visited[0] in visited;
    PathsAreShort(plan.nodes, plan.edges, Ids(visited));
  }

  lemma GoingOnIsNearer(plan: Plan, start: string, before: Machine, m: Memory, machine: Machine)
    requires ValidPlan(plan, start) && OnTrack(plan, start, before) && before.stage.Asking?
    requires GoesOn(m, machine) && m.visited == before.memory.visited && PlaceRank(before.stage.place) > 0
    requires machine.stage.place.Evaluating? ==> PlaceRank(before.stage.place) > 1
    requires |machine.memory.visited| <= |plan.nodes|
    ensures IsForward(machine) && Rank(plan, machine) < Rank(plan, before)
  {
    PathIsShort(plan, start, before);
  }

  /** Every good reply takes the run nearer to its end; a run that finishes returns. */
  lemma GoodReplyHelps(plan: Plan, start: string, machine: Machine, reply: Reply)
    requires IsGoing(plan, start, machine) && IsGood(machine, reply)
    ensures IsNearer(plan, machine, Resume(plan, machine, reply))
    ensures (machine.stage.place.Awaiting? ==> reply.signal.decision == Approve)
            ==> Resume(plan, machine, reply).memory.status == machine.memory.status
  {
    match machine.stage.place
    case Creating => CreationHelps(plan, start, machine);
    case Awaiting => DecisionHelps(plan, start, machine, reply);
    case Invoking => NodeReplyHelps(plan, start, machine, reply);
    case Sleeping => NodeReplyHelps(plan, start, machine, reply);
    case Evaluating(_, _, _) => ConditionHelps(plan, start, machine);
    case _ =>
  }

  lemma CreationHelps(plan: Plan, start: string, machine: Machine)
    requires IsGoing(plan, start, machine) && machine.stage.place.Creating?
    ensures var next := Resume(plan, machine, Done);
            && IsForward(next) && Rank(plan, next) < Rank(plan, machine)
            && next.memory.status == machine.memory.status
  {
  }

  lemma DecisionHelps(plan: Plan, start: string, machine: Machine, reply: Reply)
    requires IsGoing(plan, start, machine) && machine.stage.place.Awaiting? && IsGood(machine, reply)
    ensures var next := Resume(plan, machine, reply);
            && IsForward(next) && Rank(plan, next) < Rank(plan, machine)
            && (reply.signal.decision == Approve ==> next.memory.status == machine.memory.status)
  {
    ResumeOnTrack(plan, start, machine, reply);
    var m := Noted(machine, reply).(lastOutput := DefaultJson(reply.signal.output));
    if reply.signal.decision == Approve {
      assert Resume(plan, machine, reply) == Choose(plan, m);
      GoesOnFromNode(plan, start, machine, m);
    } else {
      assert Resume(plan, machine, reply) == AskFinish(m.(status := Rejected));
    }
  }

  lemma NodeReplyHelps(plan: Plan, start: string, machine: Machine, reply: Reply)
    requires IsGoing(plan, start, machine) && IsGood(machine, reply)
    requires machine.stage.place.Invoking? || machine.stage.place.Sleeping?
    ensures var next := Resume(plan, machine, reply);
            && IsForward(next) && Rank(plan, next) < Rank(plan, machine)
            && next.memory.status == machine.memory.status
  {
    ResumeOnTrack(plan, start, machine, reply);
    var m := Noted(machine, reply);
    if machine.stage.place.Invoking? {
      m := m.(lastOutput := DefaultJson(reply.json), completed := m.completed + [m.current]);
    }
    assert Resume(plan, machine, reply) == Choose(plan, m);
    GoesOnFromNode(plan, start, machine, m);
  }

  lemma ConditionHelps(plan: Plan, start: string, machine: Machine)
    requires IsGoing(plan, start, machine) && machine.stage.place.Evaluating?
    ensures var next := Resume(plan, machine, Truth(true));
            && IsForward(next) && Rank(plan, next) < Rank(plan, machine)
            && next.memory.status == machine.memory.status
  {
    ResumeOnTrack(plan, start, machine, Truth(true));
    var m, target := Noted(machine, Truth(true)), machine.stage.place.edge.target;
    assert Resume(plan, machine, Truth(true)) == Follow(plan, m, target);
    ArcsAreEdges(plan.edges);
    FollowGoesOn(plan, start, m, target);
    FollowStops(plan, start, m, target);
    NextNodeIsNearer(plan, start, machine, m, Follow(plan, m, target));
  }

  lemma GoesOnFromNode(plan: Plan, start: string, machine: Machine, m: Memory)
    requires ValidPlan(plan, start) && OnTrack(plan, start, machine) && machine.stage.Asking?
    requires PlaceRank(machine.stage.place) > 1 && m.current.kind != End
    requires m.visited == machine.memory.visited && m.current == machine.memory.current
    requires OnTrack(plan, start, Choose(plan, m))
    ensures IsForward(Choose(plan, m)) && Rank(plan, Choose(plan, m)) < Rank(plan, machine)
    ensures Choose(plan, m).memory.status == m.status
  {
    ChooseGoesOn(plan, start, m);
    PathIsShort(plan, start, Choose(plan, m));
    GoingOnIsNearer(plan, start, machine, m, Choose(plan, m));
  }

  lemma NextNodeIsNearer(plan: Plan, start: string, machine: Machine, m: Memory, next: Machine)
    requires ValidPlan(plan, start) && OnTrack(plan, start, machine) && machine.stage.Asking?
    requires machine.stage.place.Evaluating? && m.visited == machine.memory.visited
    requires GoesOn(m, next) && OnTrack(plan, start, next) && !next.stage.place.Evaluating?
    ensures IsForward(next) && Rank(plan, next) < Rank(plan, machine)
  {
    PathIsShort(plan, start, next);
    GoingOnIsNearer(plan, start, machine, m, next);
  }

  /** A signal for another node leaves the wait as it is. */
  lemma ForeignSignalWaits(plan: Plan, machine: Machine, signal: Signal)
    requires machine.stage.Asking? && machine.stage.place.Awaiting? && signal.nodeId != machine.memory.current.id
    ensures var next := Resume(plan, machine, Received(signal));
            next.stage == machine.stage && next.memory == Noted(machine, Received(signal))
  {
  }

  /** On an accepted graph a run begins in its loop. */
  lemma BeginsForward(isJson: string -> bool, sorter: seq<Edge> -> seq<Edge>, input: Input)
    requires ValidInput(isJson, input) && IsSorter(sorter)
    ensures IsForward(Replay(sorter, input, [])) && Replay(sorter, input, []).memory.status == Completed
  {
    var start := ValidInputIsAdmitted(isJson, sorter, input);
    BeginStops(sorter, input, start);
  }

  lemma BeginStops(sorter: seq<Edge> -> seq<Edge>, input: Input, start: string)
    requires Admitted(input) && LastStart(input.nodes).value.id == start && ValidPlan(PlanOf(sorter, input), start)
    requires Index(input.nodes)[start] == LastStart(input.nodes).value
    ensures IsForward(Begin(sorter, input)) && Begin(sorter, input).memory.status == Completed
  {
    StartIs(input.nodes);
    StartStops(PlanOf(sorter, input), start, LastStart(input.nodes).value);
  }

  lemma StartStops(plan: Plan, start: string, node: Node)
    requires ValidPlan(plan, start) && node.id == start && plan.nodes[start] == node && node.kind == Start
    ensures IsForward(Enter(plan, Blank(node), node)) && Enter(plan, Blank(node), node).memory.status == Completed
  {
    var m := Blank(node).(current := node, visited := [] + [node]);
    StepOnPath(plan, start, [], node);
    ChooseGoesOn(plan, start, m);
  }
}
