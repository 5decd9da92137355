/** Laws of the whole engine, for every interleaving, duplication, delay, loss and retry. */
module ProtocolLaws {
  import opened Model
  import opened Graph
  import opened Runtime
  import opened RuntimeLaws
  import opened Histories
  import opened Ledger
  import opened Protocol
  import opened ProtocolProofs
  import Validation
  import L = LedgerLaws
  import P = LedgerProofs
  import S = Service
  import T = Tables

  lemma {:induction false} Reachable(c: Setting, t: Trace, n: nat)
    requires Possible(c, t) && n <= |t.moves|
    ensures SystemOk(c, t.states[n])
  {
    if n > 0 {
      Reachable(c, t, n - 1);
      MoveAtKeeps(c, t, n - 1);
    } else {
      EmptyIsOk(c);
    }
  }

  lemma MoveAtKeeps(c: Setting, t: Trace, n: nat)
    requires Possible(c, t) && n < |t.moves| && SystemOk(c, t.states[n])
    ensures SystemOk(c, t.states[n + 1]) && Grows(t.states[n], t.states[n + 1])
  {
    assert MoveAt(c, t, n);
    StepKeeps(c, t.states[n], t.moves[n], t.states[n + 1]);
  }

  lemma EmptyIsOk(c: Setting)
    requires IsSorter(c.sorter)
    ensures SystemOk(c, Empty())
  {
  }

  lemma GrowsOn(first: System, second: System, third: System)
    requires Grows(first, second) && Grows(second, third)
    ensures Grows(first, third)
  {
    L.EvolvesOn(first.world.db, second.world.db, third.world.db);
    forall k | 0 <= k < |first.attempts| ensures SameAttempt(first.attempts[k], third.attempts[k]) {
      assert SameAttempt(first.attempts[k], second.attempts[k]) && SameAttempt(second.attempts[k], third.attempts[k]);
    }
  }

  lemma GrowsSelf(s: System)
    ensures Grows(s, s)
  {
    EvolvesSelf(s.world.db);
  }

  lemma StepGrows(c: Setting, t: Trace, n: nat)
    requires Possible(c, t) && n < |t.moves|
    ensures Grows(t.states[n], t.states[n + 1])
  {
    Reachable(c, t, n);
    MoveAtKeeps(c, t, n);
  }

  lemma {:induction false} Onward(c: Setting, t: Trace, i: nat, j: nat)
    requires Possible(c, t) && i <= j <= |t.moves|
    ensures Grows(t.states[i], t.states[j])
    decreases j
  {
    if i == j {
      GrowsSelf(t.states[i]);
    } else {
      Onward(c, t, i, j - 1);
      StepGrows(c, t, j - 1);
      GrowsOn(t.states[i], t.states[j - 1], t.states[j]);
    }
  }

  /** The run of an instance executes its pinned revision, from its start and for good; that graph is valid. */
  lemma PinnedLaw(c: Setting, t: Trace, i: nat, j: nat, id: string)
    requires Possible(c, t) && i <= j <= |t.moves| && id in t.states[i].flows
    ensures id in t.states[j].flows && t.states[j].flows[id].input == t.states[i].flows[id].input
    ensures Executes(t.states[j].world.db, id, t.states[j].flows[id].input)
            && ValidInput(c.isJson, t.states[j].flows[id].input)
  {
    Onward(c, t, i, j);
    Reachable(c, t, j);
    assert FlowFits(c, t.states[j], id);
  }

  lemma CancelledOnward(c: Setting, t: Trace, i: nat, j: nat, id: string)
    requires Possible(c, t) && i <= j <= |t.moves| && IsCancelled(t.states[i].world.db, id)
    ensures IsCancelled(t.states[j].world.db, id)
  {
    Onward(c, t, i, j);
    CancelledStays(t.states[i].world.db, t.states[j].world.db, id);
  }

  // ---------- agreement ----------

  /** A run that has returned agrees with the database from then on, on the status and on the result. */
  lemma AgreementLaw(c: Setting, t: Trace, i: nat, j: nat, id: string)
    requires Possible(c, t) && i <= j <= |t.moves| && id in t.states[i].flows
    requires var stage := Present(c, t.states[i].flows[id]).stage; stage.Ended? && stage.outcome.Returned?
    ensures id in t.states[j].world.db.instances
    ensures t.states[j].world.db.instances[id].status == Present(c, t.states[i].flows[id]).stage.outcome.status
    ensures t.states[j].world.db.instances[id].result
            == DefaultJson(Present(c, t.states[i].flows[id]).stage.outcome.result)
    ensures Present(c, t.states[i].flows[id]).stage.outcome.status in {Completed, Rejected}
  {
    Reachable(c, t, i);
    Onward(c, t, i, j);
    ReturnedAgrees(c, t.states[i], id);
    assert InstanceEvolves(t.states[i].world.db.instances[id], t.states[j].world.db.instances[id]);
  }

  lemma ReturnedAgrees(c: Setting, s: System, id: string)
    requires SystemOk(c, s) && id in s.flows
    requires var stage := Present(c, s.flows[id]).stage; stage.Ended? && stage.outcome.Returned?
    ensures id in s.world.db.instances
    ensures var outcome := Present(c, s.flows[id]).stage.outcome;
            && outcome.status in {Completed, Rejected}
            && s.world.db.instances[id].status == outcome.status
               && s.world.db.instances[id].result == DefaultJson(outcome.result)
  {
    var f := s.flows[id];
    var o := OriginOf(c, f);
    var outcome := Present(c, f).stage.outcome;
    var k := ReturnedWasAccepted(o, f.history);
    assert ReplyFits(c, s, id, k) && EndFits(c, s, id);
    var result := s.world.db.instances[id].result;
    var p: nat, call: Call :|
      Asked(o, f.history, p, call) && call.Finish? && call.status == outcome.status
        && DefaultJson(call.result) == result;
    FinishStatuses(o, f.history, p, call);
    FinishOnce(o, f.history, p, k, call, Finish(outcome.status, outcome.result, None));
  }

  // ---------- decisions ----------

  /** The row of a genuine signal is the only task row of its instance and node. */
  lemma GenuineIsUnique(w: S.World, id: string, signal: Signal, other: string)
    requires TasksOk(w) && Genuine(w.db, id, signal)
    requires other in w.db.tasks && w.db.tasks[other].instanceId == id && w.db.tasks[other].nodeId == signal.nodeId
    ensures other == signal.taskId
  {
    assert SameSlot(w.db.tasks[other], w.db.tasks[signal.taskId]);
  }

  /**
   Whatever signal a wait takes reports the one task row of its instance and node, which is decided, with the stored
   decision and output, however often and late the completion event was delivered.
   */
  lemma DecisionLaw(c: Setting, t: Trace, n: nat, id: string, k: nat, node: Node, signal: Signal)
    requires Possible(c, t) && n <= |t.moves| && id in t.states[n].flows
    requires var f := t.states[n].flows[id]; Answered(OriginOf(c, f), f.history, k, AwaitDecision(node),
                                                      Received(signal))
    ensures var tasks := t.states[n].world.db.tasks;
            && Genuine(t.states[n].world.db, id, signal)
            && forall other | other in tasks && tasks[other].instanceId == id && tasks[other].nodeId == signal.nodeId ::
               other == signal.taskId
  {
    Reachable(c, t, n);
    var s := t.states[n];
    assert ReplyFits(c, s, id, k);
    forall other | other in s.world.db.tasks && s.world.db.tasks[other].instanceId == id
      && s.world.db.tasks[other].nodeId == signal.nodeId
      ensures other == signal.taskId
    {
      GenuineIsUnique(s.world, id, signal, other);
    }
  }

  /**
   No signal is swallowed: a wait that drops the signal of another node drops a duplicate of one that this node's own
   wait has already consumed, and that node is never waited for again.
   */
  lemma SwallowLaw(c: Setting, t: Trace, n: nat, id: string, k: nat, node: Node, signal: Signal)
    returns (j: nat, own: Node, earlier: Signal)
    requires Possible(c, t) && n <= |t.moves| && id in t.states[n].flows
    requires var f := t.states[n].flows[id]; Answered(OriginOf(c, f), f.history, k, AwaitDecision(node),
                                                      Received(signal))
    requires signal.nodeId != node.id
    ensures var f := t.states[n].flows[id];
            && j < k && Answered(OriginOf(c, f), f.history, j, AwaitDecision(own), Received(earlier))
            && own.id == earlier.nodeId == signal.nodeId && earlier == signal
            && forall q: nat, later: Node | k <= q && Asked(OriginOf(c, f), f.history, q, AwaitDecision(later)) ::
               later.id != signal.nodeId
  {
    Reachable(c, t, n);
    j, own, earlier := DroppedIsDuplicate(c, t.states[n], id, k, node, signal);
    var f := t.states[n].flows[id];
    forall q: nat, later: Node | k <= q
      && Asked(OriginOf(c, f), f.history, q, AwaitDecision(later)) ensures later.id != signal.nodeId
    {
      assert FlowFits(c, t.states[n], id);
      WaitedOnce(c.isJson, OriginOf(c, f), f.history, k, q, signal.nodeId, later);
    }
  }

  lemma DroppedIsDuplicate(c: Setting, s: System, id: string, k: nat, node: Node, signal: Signal)
    returns (j: nat, own: Node, earlier: Signal)
    requires SystemOk(c, s) && id in s.flows && signal.nodeId != node.id
    requires Answered(OriginOf(c, s.flows[id]), s.flows[id].history, k, AwaitDecision(node), Received(signal))
    ensures j < k && Answered(OriginOf(c, s.flows[id]), s.flows[id].history, j, AwaitDecision(own), Received(earlier))
    ensures own.id == earlier.nodeId == signal.nodeId && earlier == signal
    ensures signal.nodeId in NodeIds(Consumed(LogAt(OriginOf(c, s.flows[id]), s.flows[id].history, k)))
  {
    var f := s.flows[id];
    var o := OriginOf(c, f);
    assert ReplyFits(c, s, id, k);
    var p: nat, other: Node :| p < k && Asked(o, f.history, p, CreateTask(other)) && other.id == signal.nodeId;
    OthersAreConsumed(o, f.history, p, k, other, node);
    var consumed := Consumed(LogAt(o, f.history, k));
    var i :| 0 <= i < |consumed| && consumed[i].nodeId == signal.nodeId;
    earlier := consumed[i];
    j, own := ConsumedHappened(o, f.history, k, earlier);
    assert ReplyFits(c, s, id, j);
    GenuineIsUnique(s.world, id, signal, earlier.taskId);
  }

  /** A run that waits for a decision has the task to be decided in the database. */
  lemma WaitLaw(c: Setting, t: Trace, n: nat, id: string, k: nat, node: Node)
    requires Possible(c, t) && n <= |t.moves| && id in t.states[n].flows
    requires Asked(OriginOf(c, t.states[n].flows[id]), t.states[n].flows[id].history, k, AwaitDecision(node))
    ensures HasRow(t.states[n].world.db, id, node.id)
  {
    Reachable(c, t, n);
    var f := t.states[n].flows[id];
    var j := CreatedBeforeWait(OriginOf(c, f), f.history, k, node);
    assert ReplyFits(c, t.states[n], id, j);
  }

  // ---------- whom a task is for ----------

  /**
   Every task is for an approval of the revision its instance pins, with its name and with the variables of the
   instance as input.  It was first assigned as the node says, to the starter where it says so, and is now assigned to
   whom it was last delegated to, if it ever was.
   */
  lemma AssignmentLaw(c: Setting, t: Trace, n: nat, id: string) returns (node: Node, first: T.Task)
    requires Possible(c, t) && n <= |t.moves| && id in t.states[n].world.db.tasks
    ensures var w := t.states[n].world;
            var row := w.db.tasks[id];
            && row.instanceId in w.db.instances
            && var i := w.db.instances[row.instanceId];
               var holder := if node.assigneeType == Starter then i.starterId else node.assignee;
               && (i.definitionId, i.definitionRevision) in w.db.revisions
               && node in w.db.revisions[(i.definitionId, i.definitionRevision)].nodes && node.kind == Approval
               && row.nodeId == node.id && row.name == node.name
               && row.input == (if i.variables == "" then "{}" else i.variables)
               && first in w.seenTasks && first.version == 1 && first.id == id
               && first.assigneeType == node.assigneeType && first.assignee == holder
               && (row.assigneeType, row.assignee) == AssigneeAfter(RowsOf(w.journal, id), node.assigneeType, holder)
  {
    Reachable(c, t, n);
    var w := t.states[n].world;
    var row := w.db.tasks[id];
    assert IsHeld(w, row);
    first :| BeganAs(w, row, first);
    assert IsAssigned(w.db, first) && TaskOk(w.db, row);
    var i := w.db.instances[first.instanceId];
    node :| node in w.db.revisions[(i.definitionId, i.definitionRevision)].nodes && IsTaskFor(i, node, first);
  }

  /** As first stored, a task is for an approval of the pinned revision, and assigned as that node says. */
  lemma FirstAssignmentLaw(c: Setting, t: Trace, n: nat, first: T.Task) returns (node: Node)
    requires Possible(c, t) && n <= |t.moves| && first in t.states[n].world.seenTasks && first.version == 1
    ensures var db := t.states[n].world.db;
            && first.instanceId in db.instances
            && var i := db.instances[first.instanceId];
               && (i.definitionId, i.definitionRevision) in db.revisions
               && node in db.revisions[(i.definitionId, i.definitionRevision)].nodes && node.kind == Approval
               && first.nodeId == node.id && first.name == node.name && first.assigneeType == node.assigneeType
               && (node.assigneeType == Starter ==> first.assignee == i.starterId)
               && (node.assigneeType != Starter ==> first.assignee == node.assignee)
               && (i.variables != "" ==> first.input == i.variables) && (i.variables == "" ==> first.input == "{}")
  {
    Reachable(c, t, n);
    var db := t.states[n].world.db;
    assert IsAssigned(db, first);
    var i := db.instances[first.instanceId];
    node :| node in db.revisions[(i.definitionId, i.definitionRevision)].nodes && IsTaskFor(i, node, first);
  }

  // ---------- approvals before effects ----------

  predicate IsApproved(db: T.Database, id: string, nodeId: string) {
    exists t :: t in db.tasks && db.tasks[t].instanceId == id && db.tasks[t].nodeId == nodeId
      && db.tasks[t].status == TaskApproved
  }

  /** Every approval among the visited nodes is stored as approved. */
  predicate AreApproved(db: T.Database, id: string, visited: seq<Node>) {
    forall nodeId | nodeId in Approvals(visited) :: IsApproved(db, id, nodeId)
  }

  /** The visited nodes lead from the start node to the service. */
  ghost predicate LeadTo(edges: seq<Edge>, visited: seq<Node>, service: Node) {
    && IsPath(Validation.Arcs(edges), Ids(visited)) && visited != [] && visited[0].kind == Start
    && visited[|visited| - 1] == service
  }

  lemma ApprovalsAreStored(c: Setting, s: System, id: string, k: nat, call: Call)
    requires SystemOk(c, s) && id in s.flows && Asked(OriginOf(c, s.flows[id]), s.flows[id].history, k, call)
    requires call.Invoke? || (call.Finish? && call.status == Completed)
    ensures AreApproved(s.world.db, id, Moment(OriginOf(c, s.flows[id]), s.flows[id].history, k).memory.visited)
  {
    var f := s.flows[id];
    var o := OriginOf(c, f);
    var m := Moment(o, f.history, k).memory;
    ApprovedSoFar(o, f.history, k, call);
    forall nodeId | nodeId in Approvals(m.visited) ensures IsApproved(s.world.db, id, nodeId) {
      var i :| 0 <= i < |Approvals(m.visited)| && Approvals(m.visited)[i] == nodeId;
      var signal := Consumed(m.log)[i];
      assert NodeIds(Consumed(m.log))[i] == nodeId && signal.decision == Approve;
      var j, node := ConsumedHappened(o, f.history, k, signal);
      assert ReplyFits(c, s, id, j);
      assert TaskOk(s.world.db, s.world.db.tasks[signal.taskId]);
    }
  }

  /**
   No service is called upstream before every approval on the way to it is stored as approved: the nodes visited form
   a path from the start node to the service, and each approval among them has an approved task row.
   */
  lemma ServiceLaw(c: Setting, t: Trace, n: nat, q: nat)
    requires Possible(c, t) && n <= |t.moves| && q < |t.states[n].upstream|
    ensures var s := t.states[n];
            && s.upstream[q] < |s.attempts|
            && var a := s.attempts[s.upstream[q]];
               && a.id in s.flows && a.position <= |s.flows[a.id].history|
               && var f := s.flows[a.id];
                  var visited := Moment(OriginOf(c, f), f.history, a.position).memory.visited;
                  a.call.Invoke? ==>
                    LeadTo(f.input.edges, visited, a.call.node) && AreApproved(s.world.db, a.id, visited)
  {
    Reachable(c, t, n);
    var s := t.states[n];
    assert UpstreamFits(s, q);
    var a := s.attempts[s.upstream[q]];
    assert AttemptFits(c, s, s.upstream[q]) && FlowFits(c, s, a.id);
    if a.call.Invoke? {
      InvokedAfterPath(c, s.flows[a.id], a.position, a.call);
      ApprovalsAreStored(c, s, a.id, a.position, a.call);
    }
  }

  lemma InvokedAfterPath(c: Setting, f: Flow, k: nat, call: Call)
    requires ValidInput(c.isJson, f.input) && IsSorter(c.sorter) && call.Invoke?
    requires Asked(OriginOf(c, f), f.history, k, call)
    ensures LeadTo(f.input.edges, Moment(OriginOf(c, f), f.history, k).memory.visited, call.node)
  {
    ApprovedSoFar(OriginOf(c, f), f.history, k, call);
    PathLaw(c.isJson, c.sorter, f.input, f.history[..k]);
  }

  /**
   An instance is stored as completed only where its run reached an end node with every approval on the way approved.
   */
  lemma CompletedLaw(c: Setting, t: Trace, n: nat, id: string) returns (k: nat)
    requires Possible(c, t) && n <= |t.moves| && id in t.states[n].world.db.instances
    requires t.states[n].world.db.instances[id].status == Completed
    ensures id in t.states[n].flows && k <= |t.states[n].flows[id].history|
    ensures var f := t.states[n].flows[id];
            var m := Moment(OriginOf(c, f), f.history, k).memory;
            m.current.kind == End && AreApproved(t.states[n].world.db, id, m.visited)
  {
    Reachable(c, t, n);
    var s := t.states[n];
    assert EndFits(c, s, id);
    var f := s.flows[id];
    var p: nat, call: Call :| Asked(OriginOf(c, f), f.history, p, call) && call.Finish? && call.status == Completed;
    k := p;
    ApprovedSoFar(OriginOf(c, f), f.history, k, call);
    ApprovalsAreStored(c, s, id, k, call);
  }

  // ---------- cancellation ----------

  /** The attempt is of another instance or activity, or has not been admitted to its node. */
  predicate Held(a: Attempt, id: string) {
    a.id == id && a.call.Invoke? ==> a.progress in {Begun, Lost}
  }

  /** Once an instance is cancelled, no later begun attempt of a service task gets past its guard. */
  lemma {:induction false} GuardHolds(c: Setting, t: Trace, i: nat, j: nat, id: string, k: nat)
    requires Possible(c, t) && i <= j <= |t.moves| && IsCancelled(t.states[i].world.db, id)
    requires |t.states[i].attempts| <= k < |t.states[j].attempts|
    ensures Held(t.states[j].attempts[k], id)
    decreases j
  {
    if i < j {
      if k < |t.states[j - 1].attempts| {
        GuardHolds(c, t, i, j - 1, id, k);
      }
      CancelledOnward(c, t, i, j - 1, id);
      HoldsAt(c, t, j - 1, id, k);
    }
  }

  lemma HoldsAt(c: Setting, t: Trace, n: nat, id: string, k: nat)
    requires Possible(c, t) && n < |t.moves| && IsCancelled(t.states[n].world.db, id)
    requires k < |t.states[n + 1].attempts|
    requires k < |t.states[n].attempts| ==> Held(t.states[n].attempts[k], id)
    ensures Held(t.states[n + 1].attempts[k], id)
  {
    Reachable(c, t, n);
    assert MoveAt(c, t, n);
    StepHolds(c, t.states[n], t.moves[n], t.states[n + 1], id, k);
  }

  lemma StepHolds(c: Setting, s: System, move: Move, s': System, id: string, k: nat)
    requires AttemptsFit(c, s) && FlowsFit(c, s) && Moves(c, s, move, s') && IsCancelled(s.world.db, id)
    requires k < |s'.attempts| && (k < |s.attempts| ==> Held(s.attempts[k], id))
    ensures Held(s'.attempts[k], id)
  {
    if move.Guard? {
      GuardHoldsBack(c, s, move, s', id);
    }
  }

  lemma GuardHoldsBack(c: Setting, s: System, move: Move, s': System, id: string)
    requires AttemptsFit(c, s) && FlowsFit(c, s) && move.Guard? && Acts(s, move, s') && IsCancelled(s.world.db, id)
    ensures s'.attempts == Progressed(s, move.attempt, s'.attempts[move.attempt].progress)
    ensures s.attempts[move.attempt].id == id ==> s'.attempts[move.attempt].progress == Lost
  {
    assert AttemptFits(c, s, move.attempt) && FlowFits(c, s, s.attempts[move.attempt].id);
    GuardRefuses(s.world.db, ActionOf(s, move), move.commits, id);
  }

  lemma GuardRefuses(db: T.Database, a: S.Action, commits: bool, id: string)
    requires a.MoveTo? && IsCancelled(db, id)
    ensures a.id == id ==> !Accepted(db, a, commits)
  {
  }

  lemma {:induction false} NoNewTasks(c: Setting, t: Trace, i: nat, j: nat, id: string)
    requires Possible(c, t) && i <= j <= |t.moves| && IsCancelled(t.states[i].world.db, id)
    ensures forall x | x in t.states[j].world.db.tasks && t.states[j].world.db.tasks[x].instanceId == id ::
            x in t.states[i].world.db.tasks
    decreases j
  {
    if i < j {
      NoNewTasks(c, t, i, j - 1, id);
      CancelledOnward(c, t, i, j - 1, id);
      AddsNoTaskAt(c, t, j - 1, id);
    }
  }

  lemma AddsNoTaskAt(c: Setting, t: Trace, n: nat, id: string)
    requires Possible(c, t) && n < |t.moves| && IsCancelled(t.states[n].world.db, id)
    ensures forall x | x in t.states[n + 1].world.db.tasks && t.states[n + 1].world.db.tasks[x].instanceId == id ::
              x in t.states[n].world.db.tasks && t.states[n].world.db.tasks[x].instanceId == id
  {
    assert MoveAt(c, t, n);
    StepAddsNoTask(c, t.states[n], t.moves[n], t.states[n + 1], id);
  }

  lemma StepAddsNoTask(c: Setting, s: System, move: Move, s': System, id: string)
    requires Moves(c, s, move, s') && IsCancelled(s.world.db, id)
    ensures forall x | x in s'.world.db.tasks && s'.world.db.tasks[x].instanceId == id ::
              x in s.world.db.tasks && s.world.db.tasks[x].instanceId == id
  {
    if move.User? {
      L.TasksNeedRunning(s.world.db, move.step.action, move.step.commits, id);
    } else if IsTransaction(move) {
      L.TasksNeedRunning(s.world.db, ActionOf(s, move), move.commits, id);
    } else {
      assert s'.world == s.world;
    }
  }

  /**
   An attempt of a service task is admitted if and only if its instance is running, the move of the instance commits and
   that is reported; then the instance stands at the node of the service.
   */
  lemma GuardLaw(c: Setting, t: Trace, n: nat)
    requires Possible(c, t) && n < |t.moves| && t.moves[n].Guard?
    ensures var k, s, s' := t.moves[n].attempt, t.states[n], t.states[n + 1];
            && k < |s.attempts| == |s'.attempts| && s.attempts[k].call.Invoke?
            && var id, node := s.attempts[k].id, s.attempts[k].call.node;
               && id in s.world.db.instances && id in s'.world.db.instances
               && s'.attempts[k].progress in {Guarded, Lost}
               && (s'.attempts[k].progress == Guarded
                   <==> s.world.db.instances[id].status == Running && t.moves[n].commits && t.moves[n].reported)
               && (s'.attempts[k].progress == Guarded ==>
                     s'.world.db.instances[id].status == Running
                     && s'.world.db.instances[id].currentNodeId == node.id)
  {
    Reachable(c, t, n);
    assert MoveAt(c, t, n);
    var s, k := t.states[n], t.moves[n].attempt;
    assert AttemptFits(c, s, k) && FlowFits(c, s, s.attempts[k].id);
    MoveIsAccepted(s.world.db, ActionOf(s, t.moves[n]), t.moves[n].commits);
  }

  lemma MoveIsAccepted(db: T.Database, a: S.Action, commits: bool)
    requires a.MoveTo? && T.Visible(db, a.tenantId, a.applicationId, a.id)
    ensures Accepted(db, a, commits) <==> commits && db.instances[a.id].status == Running
    ensures var later := S.Run(db, a, commits);
            && a.id in later.instances && later.instances[a.id].status == db.instances[a.id].status
            && (commits && db.instances[a.id].status == Running ==> later.instances[a.id].currentNodeId == a.nodeId)
  {
  }

  lemma HeldIsNotServed(s: System, k: nat)
    requires UpstreamsFit(s) && k < |s.attempts| && s.attempts[k].call.Invoke?
             && s.attempts[k].progress in {Begun, Lost}
    ensures k !in s.upstream
  {
    forall q: nat | q < |s.upstream| ensures s.upstream[q] != k {
      assert UpstreamFits(s, q);
    }
  }

  /**
   Cancellation law.  Once a cancellation has committed, in every later state the instance is cancelled, no task row was
   added to it, and no attempt of a service task that began afterwards has called upstream; and if its run has ended, it
   ended with an error and attempted to compensate exactly its completed services that have a compensation, last first.
   */
  lemma CancellationLaw(c: Setting, t: Trace, i: nat, j: nat, id: string)
    requires Possible(c, t) && i <= j <= |t.moves| && IsCancelled(t.states[i].world.db, id)
    ensures IsCancelled(t.states[j].world.db, id)
    ensures forall x | x in t.states[j].world.db.tasks && t.states[j].world.db.tasks[x].instanceId == id ::
            x in t.states[i].world.db.tasks
    ensures forall k | |t.states[i].attempts| <= k < |t.states[j].attempts| ::
              t.states[j].attempts[k].id == id && t.states[j].attempts[k].call.Invoke? ==> k !in t.states[j].upstream
    ensures id in t.states[j].flows && Present(c, t.states[j].flows[id]).stage.Ended? ==>
              var Machine(m, Ended(outcome)) := Present(c, t.states[j].flows[id]);
              outcome.Raised? && Compensated(m.log) == Reversed(Compensable(Services(m.log))) && Reports(m.log) == 1
  {
    CancelledOnward(c, t, i, j, id);
    NoNewTasks(c, t, i, j, id);
    Reachable(c, t, j);
    var s := t.states[j];
    forall k | |t.states[i].attempts| <= k < |s.attempts| && s.attempts[k].id == id
      && s.attempts[k].call.Invoke? ensures k !in s.upstream
    {
      GuardHolds(c, t, i, j, id, k);
      HeldIsNotServed(s, k);
    }
    if id in s.flows && Present(c, s.flows[id]).stage.Ended? {
      CancelledRunRaises(c, t, j, id);
    }
  }

  lemma CancelledRunRaises(c: Setting, t: Trace, n: nat, id: string)
    requires Possible(c, t) && n <= |t.moves| && id in t.states[n].flows && IsCancelled(t.states[n].world.db, id)
    requires Present(c, t.states[n].flows[id]).stage.Ended?
    ensures var Machine(m, Ended(outcome)) := Present(c, t.states[n].flows[id]);
            outcome.Raised? && Compensated(m.log) == Reversed(Compensable(Services(m.log))) && Reports(m.log) == 1
  {
    var f := t.states[n].flows[id];
    if Present(c, f).stage.outcome.Returned? {
      AgreementLaw(c, t, n, n, id);
    }
    Reachable(c, t, n);
    assert FlowFits(c, t.states[n], id);
    var start := ValidInputIsAdmitted(c.isJson, c.sorter, f.input);
    SagaLaw(c.sorter, f.input, f.history);
  }

  /** A wait or a timer is refused only for an instance that is cancelled. */
  lemma RefusalLaw(c: Setting, t: Trace, n: nat, id: string, k: nat, call: Call)
    requires Possible(c, t) && n <= |t.moves| && id in t.states[n].flows && (call.AwaitDecision? || call.Sleep?)
    requires var f := t.states[n].flows[id]; Answered(OriginOf(c, f), f.history, k, call, Denied)
    ensures IsCancelled(t.states[n].world.db, id)
  {
    Reachable(c, t, n);
    assert ReplyFits(c, t.states[n], id, k);
  }

  // ---------- compensation ----------

  /** Every compensation that is called upstream follows a forward call of the same service by the same run. */
  lemma CompensationLaw(c: Setting, t: Trace, n: nat, q: nat) returns (p: nat)
    requires Possible(c, t) && n <= |t.moves| && q < |t.states[n].upstream|
             && t.states[n].upstream[q] < |t.states[n].attempts|
    requires t.states[n].attempts[t.states[n].upstream[q]].call.Compensate?
    ensures var s := t.states[n];
            && p < q && s.upstream[p] < |s.attempts|
            && s.attempts[s.upstream[p]].id == s.attempts[s.upstream[q]].id
            && s.attempts[s.upstream[p]].call == Invoke(s.attempts[s.upstream[q]].call.node)
  {
    Reachable(c, t, n);
    var s := t.states[n];
    assert UpstreamFits(s, q);
    p :| 0 <= p < q && s.upstream[p] < |s.attempts|
         && s.attempts[s.upstream[p]].id == s.attempts[s.upstream[q]].id
         && s.attempts[s.upstream[p]].call == Invoke(s.attempts[s.upstream[q]].call.node);
  }

  lemma {:induction false} CompensatedIsListed(log: seq<Exchange>, i: nat)
    requires i < |log| && log[i].call.Compensate?
    ensures Compensated(log) != []
  {
    if i < |log| - 1 {
      CompensatedIsListed(log[..|log| - 1], i);
    }
  }

  /** A run that has returned has made, and will make, no compensation call upstream. */
  lemma ReturnedCompensatesNothing(c: Setting, t: Trace, i: nat, j: nat, id: string, q: nat)
    requires Possible(c, t) && i <= j <= |t.moves| && id in t.states[i].flows
    requires var stage := Present(c, t.states[i].flows[id]).stage; stage.Ended? && stage.outcome.Returned?
    requires q < |t.states[j].upstream| && t.states[j].upstream[q] < |t.states[j].attempts|
    requires t.states[j].attempts[t.states[j].upstream[q]].id == id
    ensures !t.states[j].attempts[t.states[j].upstream[q]].call.Compensate?
  {
    Onward(c, t, i, j);
    Reachable(c, t, j);
    var s := t.states[j];
    assert AttemptFits(c, s, s.upstream[q]) && FlowFits(c, s, id);
    var start := ValidInputIsAdmitted(c.isJson, c.sorter, s.flows[id].input);
    var o := OriginOf(c, s.flows[id]);
    var a := s.attempts[s.upstream[q]];
    ReturnedAskedNothing(o, t.states[i].flows[id].history, s.flows[id].history, a.position, a.call);
  }

  /** A run that has returned asked for no compensation, before or after. */
  lemma ReturnedAskedNothing(o: Origin, history: seq<Reply>, later: seq<Reply>, p: nat, call: Call)
    requires Admitted(o.input) && history <= later && Asked(o, later, p, call)
    requires Replay(o.sorter, o.input, history).stage.Ended?
             && Replay(o.sorter, o.input, history).stage.outcome.Returned?
    ensures !call.Compensate?
  {
    assert later[..|history|] == history;
    if p >= |history| {
      assert later[..p][..|history|] == history;
      EndedStays(o.sorter, o.input, later[..p], |history|);
    } else if call.Compensate? {
      var k := AnsweredIsLogged(o, later, p, |history|, call);
      CompensatedIsListed(LogAt(o, later, |history|), k);
      SagaLaw(o.sorter, o.input, history);
    }
  }
}
