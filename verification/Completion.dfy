/**
 Nothing is ever stuck: from every reachable state, whatever has been lost, duplicated or delayed, every running
 instance can still be brought to its end.
 */
module Completion {
  import opened Text
  import opened Model
  import opened Runtime
  import opened RuntimeLaws
  import opened OutcomeLaws
  import opened ForwardRuns
  import opened Histories
  import opened Events
  import opened Ledger
  import opened Protocol
  import opened ProtocolProofs
  import opened ProtocolLaws
  import opened Traces
  import A = AccessLaws
  import D = DeliveryLaws
  import L = LedgerLaws
  import P = LedgerProofs
  import S = Service
  import T = Tables
  import V = Validation

  /** The instance is running. */
  predicate Runs(s: System, id: string) {
    id in s.world.db.instances && s.world.db.instances[id].status == Running
  }

  /** The run of the instance waits for `call`. */
  predicate Waits(c: Setting, s: System, id: string, call: Call) {
    id in s.flows && Present(c, s.flows[id]).stage.Asking? && Present(c, s.flows[id]).stage.call == call
  }

  /** The run of the instance has taken one more reply, and no other run has changed. */
  predicate TookReply(s: System, s': System, id: string, reply: Reply) {
    id in s.flows && s'.flows == s.flows[id := s.flows[id].(history := s.flows[id].history + [reply])]
  }

  // ---------- identifiers ----------

  /** There is always an unused identifier. */
  lemma {:induction false} FreshId(used: set<string>) returns (id: string)
    ensures id !in used && id != ""
    ensures forall x | x in used :: |x| < |id|
    decreases |used|
  {
    if used == {} {
      id := "x";
    } else {
      var x :| x in used;
      var other := FreshId(used - {x});
      id := other + x + "x";
      forall y | y in used ensures |y| < |id| {
        assert y != x ==> y in used - {x};
      }
    }
  }

  // ---------- activities ----------

  /** A new attempt begins. */
  lemma BeginAttempt(c: Setting, t: Trace, id: string, call: Call) returns (later: Trace)
    requires Possible(c, t) && Waits(c, Last(t), id, call) && IsActivity(call)
    ensures Possible(c, later) && Continues(t, later)
    ensures Last(later)
            == Last(t).(attempts := Last(t).attempts + [Attempt(id, |Last(t).flows[id].history|, call, Begun)])
  {
    var s := Last(t);
    later := GoOn(c, t, Begin(id), s.(attempts := s.attempts + [Attempt(id, |s.flows[id].history|, call, Begun)]));
  }

  /** Attempt `k` has come as far as `progress`; the runs are as they were, and the instance has `status`. */
  predicate Progresses(s: System, s': System, k: nat, id: string, progress: Progress, status: InstanceStatus) {
    && k < |s.attempts| == |s'.attempts| && s'.flows == s.flows
    && s'.attempts[k] == s.attempts[k].(progress := progress)
    && id in s'.world.db.instances && s'.world.db.instances[id].status == status
    && (NoneRejected(s.world.db, id) ==> NoneRejected(s'.world.db, id))
  }

  predicate IsAttempt(s: System, k: nat, id: string, call: Call, progress: Progress) {
    && k < |s.attempts| && s.attempts[k].id == id && s.attempts[k].call == call && s.attempts[k].progress == progress
    && id in s.flows
  }

  /** Either the instance has the task already, or nothing stands in the way of it. */
  lemma TaskIsThereOrNew(w: S.World, t: T.Task)
    requires TasksOk(w) && T.Visible(w.db, t.tenantId, t.applicationId, t.instanceId)
    ensures T.HasTask(w.db, t)
            || forall x | x in w.db.tasks ::
                 !(w.db.tasks[x].instanceId == t.instanceId && w.db.tasks[x].nodeId == t.nodeId)
  {
    if x :| x in w.db.tasks && w.db.tasks[x].instanceId == t.instanceId && w.db.tasks[x].nodeId == t.nodeId {
      assert TaskOk(w.db, w.db.tasks[x]);
    }
  }

  lemma AcceptsCreation(db: T.Database, t: T.Task)
    requires T.Visible(db, t.tenantId, t.applicationId, t.instanceId) && db.instances[t.instanceId].status == Running
    requires t.id !in db.tasks && !t.assigneeType.OtherAssignee?
    requires T.HasTask(db, t)
             || forall x | x in db.tasks :: !(db.tasks[x].instanceId == t.instanceId && db.tasks[x].nodeId == t.nodeId)
    ensures Accepted(db, S.NewTask(t), true)
    ensures var later := S.Run(db, S.NewTask(t), true);
            && t.instanceId in later.instances && later.instances[t.instanceId].status == Running
            && (t.status != TaskRejected && NoneRejected(db, t.instanceId) ==> NoneRejected(later, t.instanceId))
  {
  }

  lemma CreationIsAccepted(c: Setting, s: System, id: string, p: nat, node: Node, newId: string)
    requires SystemOk(c, s) && id in s.flows && Runs(s, id) && newId !in s.world.db.tasks
    requires Asked(OriginOf(c, s.flows[id]), s.flows[id].history, p, CreateTask(node))
    ensures var a := S.NewTask(TaskFor(s.flows[id].input, node, newId));
            && Accepted(s.world.db, a, true)
            && id in S.Run(s.world.db, a, true).instances
            && S.Run(s.world.db, a, true).instances[id].status == Running
            && (NoneRejected(s.world.db, id) ==> NoneRejected(S.Run(s.world.db, a, true), id))
  {
    assert FlowFits(c, s, id);
    var value := TaskFor(s.flows[id].input, node, newId);
    CreatedForInput(c.isJson, OriginOf(c, s.flows[id]), s.flows[id].history, p, node);
    assert V.ValidNode(c.isJson, node);
    TaskIsThereOrNew(s.world, value);
    AcceptsCreation(s.world.db, value);
  }

  lemma CreateIt(c: Setting, t: Trace, k: nat, id: string, node: Node) returns (later: Trace)
    requires Possible(c, t) && IsAttempt(Last(t), k, id, CreateTask(node), Begun) && Runs(Last(t), id)
    ensures Possible(c, later) && Continues(t, later)
    ensures Progresses(Last(t), Last(later), k, id, Succeeded(Done), Running)
  {
    LastIsOk(c, t);
    var s := Last(t);
    assert AttemptFits(c, s, k);
    var newId := FreshId(s.world.db.tasks.Keys);
    CreationIsAccepted(c, s, id, s.attempts[k].position, node, newId);
    var move := CreateRow(k, newId, true, true);
    later := GoOn(c, t, move, s.(world := S.Next(s.world, ActionOf(s, move), true),
                                 attempts := Progressed(s, k, Succeeded(Done))));
  }

  lemma AcceptsMove(db: T.Database, a: S.Action)
    requires a.MoveTo? && T.Visible(db, a.tenantId, a.applicationId, a.id) && db.instances[a.id].status == Running
    ensures Accepted(db, a, true)
    ensures a.id in S.Run(db, a, true).instances && S.Run(db, a, true).instances[a.id].status == Running
    ensures S.Run(db, a, true).tasks == db.tasks
  {
  }

  lemma GuardIt(c: Setting, t: Trace, k: nat, id: string, node: Node) returns (later: Trace)
    requires Possible(c, t) && IsAttempt(Last(t), k, id, Invoke(node), Begun) && Runs(Last(t), id)
    ensures Possible(c, later) && Continues(t, later)
    ensures Progresses(Last(t), Last(later), k, id, Guarded, Running)
  {
    LastIsOk(c, t);
    var s := Last(t);
    assert FlowFits(c, s, id);
    var move := Guard(k, true, true);
    AcceptsMove(s.world.db, ActionOf(s, move));
    later := GoOn(c, t, move, s.(world := S.Next(s.world, ActionOf(s, move), true),
                                 attempts := Progressed(s, k, Guarded)));
  }

  lemma CallIt(c: Setting, t: Trace, k: nat, id: string, node: Node, json: string) returns (later: Trace)
    requires Possible(c, t) && IsAttempt(Last(t), k, id, Invoke(node), Guarded) && Runs(Last(t), id)
    ensures Possible(c, later) && Continues(t, later)
    ensures Progresses(Last(t), Last(later), k, id, Succeeded(Output(json)), Running)
  {
    var s := Last(t);
    later := GoOn(c, t, CallUpstream(k, Some(json)),
                  s.(attempts := Progressed(s, k, Succeeded(Output(json))), upstream := s.upstream + [k]));
  }

  lemma JudgeIt(c: Setting, t: Trace, k: nat, id: string, call: Call, holds: bool) returns (later: Trace)
    requires Possible(c, t) && IsAttempt(Last(t), k, id, call, Begun) && call.Evaluate? && Runs(Last(t), id)
    ensures Possible(c, later) && Continues(t, later)
    ensures Progresses(Last(t), Last(later), k, id, Succeeded(Truth(holds)), Running)
  {
    var s := Last(t);
    later := GoOn(c, t, Judge(k, Some(holds)), s.(attempts := Progressed(s, k, Succeeded(Truth(holds)))));
  }

  lemma AcceptsFinish(db: T.Database, a: S.Action)
    requires a.Conclude? && T.Visible(db, a.tenantId, a.applicationId, a.id) && db.instances[a.id].status == Running
    requires a.status != Running
    ensures Accepted(db, a, true)
    ensures a.id in S.Run(db, a, true).instances && S.Run(db, a, true).instances[a.id].status == a.status
    ensures S.Run(db, a, true).tasks == db.tasks
  {
  }

  lemma ConcludeIt(c: Setting, t: Trace, k: nat, id: string, call: Call) returns (later: Trace)
    requires Possible(c, t) && IsAttempt(Last(t), k, id, call, Begun) && call.Finish? && Runs(Last(t), id)
    ensures Possible(c, later) && Continues(t, later)
    ensures Progresses(Last(t), Last(later), k, id, Succeeded(Done), call.status)
  {
    LastIsOk(c, t);
    var s := Last(t);
    assert FlowFits(c, s, id) && AttemptFits(c, s, k);
    FinishStatuses(OriginOf(c, s.flows[id]), s.flows[id].history, s.attempts[k].position, call);
    var move := Conclude(k, "", 0, true, true);
    AcceptsFinish(s.world.db, ActionOf(s, move));
    later := GoOn(c, t, move, s.(world := S.Next(s.world, ActionOf(s, move), true),
                                 attempts := Progressed(s, k, Succeeded(Done))));
  }

  /** The effect of an attempt that has begun: any success there can be. */
  lemma Perform(c: Setting, t: Trace, k: nat, id: string, call: Call, reply: Reply) returns (later: Trace)
    requires Possible(c, t) && IsAttempt(Last(t), k, id, call, Begun) && Runs(Last(t), id)
    requires IsSuccess(call, reply) && !call.Compensate?
    ensures Possible(c, later) && Continues(t, later)
    ensures Progresses(Last(t), Last(later), k, id, Succeeded(reply), if call.Finish? then call.status else Running)
  {
    match call
    case CreateTask(node) => later := CreateIt(c, t, k, id, node);
    case Invoke(node) =>
      var guarded := GuardIt(c, t, k, id, node);
      later := CallIt(c, guarded, k, id, node, reply.json);
    case Evaluate(_, _) => later := JudgeIt(c, t, k, id, call, reply.holds);
    case Finish(_, _, _) => later := ConcludeIt(c, t, k, id, call);
  }

  /** A run can take the success of an attempt that was made for its pending call. */
  lemma TakeSuccess(c: Setting, t: Trace, k: nat, id: string, call: Call, reply: Reply) returns (later: Trace)
    requires Possible(c, t) && Waits(c, Last(t), id, call) && IsActivity(call) && !reply.Received?
    requires k < |Last(t).attempts|
             && Last(t).attempts[k] == Attempt(id, |Last(t).flows[id].history|, call, Succeeded(reply))
    ensures Possible(c, later) && Continues(t, later)
    ensures TookReply(Last(t), Last(later), id, reply) && Last(later).world == Last(t).world
  {
    var s := Last(t);
    later := GoOn(c, t, Answer(id, reply), s.(flows := s.flows[id := TakeReply(s.flows[id], reply)]));
  }

  /** A pending activity of a running instance can succeed, with any success there can be. */
  lemma Succeed(c: Setting, t: Trace, id: string, call: Call, reply: Reply) returns (later: Trace)
    requires Possible(c, t) && Waits(c, Last(t), id, call) && Runs(Last(t), id)
    requires IsActivity(call) && IsSuccess(call, reply) && !call.Compensate?
    ensures Possible(c, later) && Continues(t, later) && TookReply(Last(t), Last(later), id, reply)
    ensures id in Last(later).world.db.instances
    ensures Last(later).world.db.instances[id].status == if call.Finish? then call.status else Running
    ensures NoneRejected(Last(t).world.db, id) ==> NoneRejected(Last(later).world.db, id)
  {
    var begun := BeginAttempt(c, t, id, call);
    var k := |Last(t).attempts|;
    var done := Perform(c, begun, k, id, call, reply);
    later := TakeSuccess(c, done, k, id, call, reply);
  }

  // ---------- decisions ----------

  /** Somebody may act on every open task. */
  lemma SomebodyMay(db: T.Database, task: T.Task) returns (actor: string)
    requires TaskOk(db, task) && !IsDecided(task)
    ensures actor != "" && S.Authorized(S.Env(s => false, (a, r) => true, (a, e) => true), actor, task)
  {
    actor := if task.claimedBy != "" then task.claimedBy
             else if task.assigneeType in {AssigneeType.User, Starter} then task.assignee else "u";
  }

  lemma ApprovalEffect(env: S.Env, w: S.World, a: S.Action)
    requires TasksOk(w) && S.Admissible(env, w, a) && a.Complete? && a.decision == Approve
    requires a.task.id in w.db.tasks && w.db.tasks[a.task.id] == a.task && a.task.status in {Pending, Claimed}
    requires a.historyId !in w.db.history
    ensures S.Run(w.db, a, true).instances == w.db.instances
    ensures S.Run(w.db, a, true).tasks == w.db.tasks[a.task.id := L.Operated(a, a.task)]
  {
    A.OpenOperationSucceeds(env, w, a, true);
    L.OperationReplaces(env, w, a, true);
  }

  /** An approval of an open task that is admissible. */
  lemma ApprovalOf(c: Setting, w: S.World, taskId: string) returns (env: S.Env, a: S.Action)
    requires TasksOk(w) && taskId in w.db.tasks && !IsDecided(w.db.tasks[taskId]) && c.isJson("{}")
    ensures env.isJson == c.isJson && S.Admissible(env, w, a) && a.Complete? && a.decision == Approve
    ensures a.task == w.db.tasks[taskId] && a.task.id == taskId && a.historyId !in w.db.history
    ensures a.task.status in {Pending, Claimed}
  {
    var row := w.db.tasks[taskId];
    assert TaskOk(w.db, row);
    var actor := SomebodyMay(w.db, row);
    var historyId := FreshId(w.db.history.Keys);
    env := S.Env(c.isJson, (a, r) => true, (a, e) => true);
    a := S.Complete(row, Approve, "", "{}", actor, historyId, 0);
    assert ObjectText("{}") == "{}";
  }

  /** An open task can be approved by somebody who may act on it. */
  lemma Approves(c: Setting, t: Trace, taskId: string) returns (later: Trace)
    requires Possible(c, t) && taskId in Last(t).world.db.tasks && !IsDecided(Last(t).world.db.tasks[taskId])
    requires c.isJson("{}")
    ensures Possible(c, later) && Continues(t, later) && Last(later).flows == Last(t).flows
    ensures Last(later).world.db.instances == Last(t).world.db.instances
    ensures taskId in Last(later).world.db.tasks && Last(later).world.db.tasks[taskId].status == TaskApproved
    ensures Last(later).world.db.tasks == Last(t).world.db.tasks[taskId := Last(later).world.db.tasks[taskId]]
    ensures Last(later).world.db.tasks[taskId].instanceId == Last(t).world.db.tasks[taskId].instanceId
    ensures Last(later).world.db.tasks[taskId].nodeId == Last(t).world.db.tasks[taskId].nodeId
  {
    LastIsOk(c, t);
    var s := Last(t);
    var env, action := ApprovalOf(c, s.world, taskId);
    ApprovalEffect(env, s.world, action);
    later := GoOn(c, t, Move.User(L.Step(env, action, true)), s.(world := S.Next(s.world, action, true)));
  }

  /** The decision of a decided task can be delivered to its run. */
  lemma DeliversDecision(c: Setting, t: Trace, id: string, taskId: string) returns (later: Trace, signal: Signal)
    requires Possible(c, t) && id in Last(t).flows && taskId in Last(t).world.db.tasks
    requires Last(t).world.db.tasks[taskId].instanceId == id && IsDecided(Last(t).world.db.tasks[taskId])
    ensures Possible(c, later) && Continues(t, later) && Last(later).world == Last(t).world
    ensures Last(later).flows
            == Last(t).flows[id := Last(t).flows[id].(mailbox := Last(t).flows[id].mailbox + [signal])]
    ensures signal.nodeId == Last(t).world.db.tasks[taskId].nodeId
  {
    LastIsOk(c, t);
    var s := Last(t);
    var p := L.EventFor(s.world, WasDecided(taskId));
    var e := s.world.db.outbox[p];
    assert Faithful(s.world.db, e);
    D.DecisionDecodes(c, s, e);
    var row := s.world.db.tasks[taskId];
    signal := Signal(row.id, row.nodeId, row.decision, row.output);
    DeliveryIsAMove(c, s, p);
    later := GoOn(c, t, Deliver(p), Receive(s, e));
  }

  /** There is a decision for the node in the mailbox. */
  predicate HasDecision(s: System, id: string, nodeId: string) {
    id in s.flows && exists i :: 0 <= i < |s.flows[id].mailbox| && s.flows[id].mailbox[i].nodeId == nodeId
  }

  /** A run takes the first signal of its mailbox. */
  lemma TakeSignal(c: Setting, t: Trace, id: string, node: Node) returns (later: Trace)
    requires Possible(c, t) && Waits(c, Last(t), id, AwaitDecision(node)) && Last(t).flows[id].mailbox != []
    ensures Possible(c, later) && Continues(t, later) && Last(later).world == Last(t).world
    ensures Last(later).flows
            == Last(t).flows[id := TakeReply(Last(t).flows[id], Received(Last(t).flows[id].mailbox[0]))]
  {
    var s := Last(t);
    var reply := Received(s.flows[id].mailbox[0]);
    later := GoOn(c, t, Answer(id, reply), s.(flows := s.flows[id := TakeReply(s.flows[id], reply)]));
  }

  /** What the run looks like when it has taken its decision. */
  predicate Decides(c: Setting, s: System, s': System, id: string, node: Node, signal: Signal) {
    && id in s.flows && id in s'.flows && signal.nodeId == node.id && s'.flows[id].input == s.flows[id].input
    && Waits(c, s', id, AwaitDecision(node)) && s'.flows[id].mailbox != [] && s'.flows[id].mailbox[0] == signal
    && Present(c, s'.flows[id]).stage == Present(c, s.flows[id]).stage
    && Present(c, s'.flows[id]).memory.visited == Present(c, s.flows[id]).memory.visited
    && Present(c, s'.flows[id]).memory.status == Present(c, s.flows[id]).memory.status
  }

  /** The run drops the signals before the first one for its node. */
  lemma {:induction false} Drains(c: Setting, t: Trace, id: string, node: Node)
    returns (later: Trace, signal: Signal)
    requires Possible(c, t) && Waits(c, Last(t), id, AwaitDecision(node)) && HasDecision(Last(t), id, node.id)
    ensures Possible(c, later) && Continues(t, later) && Last(later).world == Last(t).world
    ensures Decides(c, Last(t), Last(later), id, node, signal)
    decreases |Last(t).flows[id].mailbox|
  {
    var f := Last(t).flows[id];
    if f.mailbox[0].nodeId == node.id {
      later, signal := t, f.mailbox[0];
    } else {
      var next := TakeSignal(c, t, id, node);
      DroppedSignalWaits(c, f, node);
      assert HasDecision(Last(next), id, node.id) by {
        var i :| 0 <= i < |f.mailbox| && f.mailbox[i].nodeId == node.id;
        assert f.mailbox[1..][i - 1] == f.mailbox[i];
      }
      later, signal := Drains(c, next, id, node);
    }
  }

  lemma DroppedSignalWaits(c: Setting, f: Flow, node: Node)
    requires Present(c, f).stage.Asking? && Present(c, f).stage.call == AwaitDecision(node)
    requires f.mailbox != [] && f.mailbox[0].nodeId != node.id
    ensures var next := Present(c, TakeReply(f, Received(f.mailbox[0])));
            && next.stage == Present(c, f).stage && next.memory.visited == Present(c, f).memory.visited
            && next.memory.status == Present(c, f).memory.status
  {
    ReplayIsSound(c.sorter, f.input, f.history);
    ForeignSignalWaits(PlanOf(c.sorter, f.input), Present(c, f), f.mailbox[0]);
    OneMore(c, f, Received(f.mailbox[0]));
  }

  lemma OneMore(c: Setting, f: Flow, reply: Reply)
    ensures Present(c, TakeReply(f, reply)) == Resume(PlanOf(c.sorter, f.input), Present(c, f), reply)
  {
    assert (f.history + [reply])[..|f.history|] == f.history;
  }

  /** The task that a run waits for can be decided, and its decision brought to the run. */
  lemma BringDecision(c: Setting, t: Trace, id: string, node: Node) returns (later: Trace)
    requires Possible(c, t) && Waits(c, Last(t), id, AwaitDecision(node)) && c.isJson("{}")
    ensures Possible(c, later) && Continues(t, later) && HasDecision(Last(later), id, node.id)
    ensures Last(later).world.db.instances == Last(t).world.db.instances
    ensures Last(later).flows.Keys == Last(t).flows.Keys
    ensures Last(later).flows[id] == Last(t).flows[id].(mailbox := Last(later).flows[id].mailbox)
    ensures NoneRejected(Last(t).world.db, id) ==> NoneRejected(Last(later).world.db, id)
  {
    var f := Last(t).flows[id];
    assert f.history[..|f.history|] == f.history;
    WaitLaw(c, t, |t.moves|, id, |f.history|, node);
    var taskId :| taskId in Last(t).world.db.tasks && Last(t).world.db.tasks[taskId].instanceId == id
                  && Last(t).world.db.tasks[taskId].nodeId == node.id;
    var decided := t;
    if !IsDecided(Last(t).world.db.tasks[taskId]) {
      decided := Approves(c, t, taskId);
    }
    var signal;
    later, signal := DeliversDecision(c, decided, id, taskId);
    var mailbox := Last(later).flows[id].mailbox;
    assert mailbox[|mailbox| - 1] == signal;
  }

  /** No task of the instance is rejected. */
  predicate NoneRejected(db: T.Database, id: string) {
    forall x | x in db.tasks && db.tasks[x].instanceId == id :: db.tasks[x].status != TaskRejected
  }

  /** A waiting run can get its decision: of the open task, an approval. */
  lemma GetDecision(c: Setting, t: Trace, id: string, node: Node) returns (later: Trace, signal: Signal)
    requires Possible(c, t) && Waits(c, Last(t), id, AwaitDecision(node)) && c.isJson("{}")
    ensures Possible(c, later) && Continues(t, later) && Decides(c, Last(t), Last(later), id, node, signal)
    ensures Last(later).world.db.instances == Last(t).world.db.instances
    ensures signal.decision in {Approve, Reject}
    ensures NoneRejected(Last(t).world.db, id) ==>
              NoneRejected(Last(later).world.db, id) && signal.decision == Approve
  {
    var brought := BringDecision(c, t, id, node);
    later, signal := Drains(c, brought, id, node);
    LastIsOk(c, later);
    MailIsDecided(c, Last(later), id, signal);
  }

  lemma LastIsOk(c: Setting, t: Trace)
    requires Possible(c, t)
    ensures SystemOk(c, Last(t))
  {
    Reachable(c, t, |t.moves|);
  }

  lemma MailIsDecided(c: Setting, s: System, id: string, signal: Signal)
    requires SystemOk(c, s) && id in s.flows && signal in s.flows[id].mailbox
    ensures signal.decision in {Approve, Reject} && (NoneRejected(s.world.db, id) ==> signal.decision == Approve)
  {
    assert MailFits(c, s, id, signal);
    GenuineIsDecided(s.world, id, signal);
  }

  /** A signal reports a decision, and no rejection where none is stored. */
  lemma GenuineIsDecided(w: S.World, id: string, signal: Signal)
    requires TasksOk(w) && Genuine(w.db, id, signal)
    ensures signal.decision in {Approve, Reject} && (NoneRejected(w.db, id) ==> signal.decision == Approve)
  {
    assert TaskOk(w.db, w.db.tasks[signal.taskId]);
  }

  // ---------- to the end ----------

  /** The instance is running, and so is its run. */
  predicate IsLive(c: Setting, s: System, id: string) {
    Runs(s, id) && id in s.flows && IsForward(Present(c, s.flows[id]))
  }

  function PlanFor(c: Setting, f: Flow): Plan {
    PlanOf(c.sorter, f.input)
  }

  lemma LiveIsGoing(c: Setting, s: System, id: string) returns (start: string)
    requires SystemOk(c, s) && IsLive(c, s, id)
    ensures IsGoing(PlanFor(c, s.flows[id]), start, Present(c, s.flows[id]))
  {
    var f := s.flows[id];
    assert FlowFits(c, s, id);
    start := ReplayOnTrack(c.isJson, c.sorter, f.input, f.history);
    ReplayIsSound(c.sorter, f.input, f.history);
    ReplayExplained(c.sorter, f.input, f.history);
  }

  /** The run has taken a good reply, and the instance runs on until it is finished. */
  predicate IsServed(c: Setting, s: System, s': System, id: string) {
    && id in s.flows && id in s'.flows && s'.flows[id].input == s.flows[id].input
    && id in s'.world.db.instances
    && IsNearer(PlanFor(c, s.flows[id]), Present(c, s.flows[id]), Present(c, s'.flows[id]))
    && s'.world.db.instances[id].status ==
       (if Present(c, s.flows[id]).stage.Asking? && Present(c, s.flows[id]).stage.call.Finish?
        then Present(c, s.flows[id]).memory.status else Running)
  }

  lemma ReplyServes(c: Setting, s: System, s': System, id: string, reply: Reply)
    requires SystemOk(c, s) && IsLive(c, s, id) && IsGood(Present(c, s.flows[id]), reply)
    requires id in s'.flows && s'.flows[id].input == s.flows[id].input
             && s'.flows[id].history == s.flows[id].history + [reply]
    requires id in s'.world.db.instances
    requires s'.world.db.instances[id].status ==
             if Present(c, s.flows[id]).stage.call.Finish? then Present(c, s.flows[id]).memory.status else Running
    ensures IsServed(c, s, s', id)
    ensures (Present(c, s.flows[id]).stage.place.Awaiting? ==> reply.signal.decision == Approve)
            ==> Present(c, s'.flows[id]).memory.status == Present(c, s.flows[id]).memory.status
  {
    var f := s.flows[id];
    var start := LiveIsGoing(c, s, id);
    GoodReplyHelps(PlanFor(c, f), start, Present(c, f), reply);
    OneMore(c, f, reply);
    assert Present(c, s'.flows[id]) == Present(c, TakeReply(f, reply));
  }

  /** The reply that lets a waiting activity or timer go on. */
  function GoodReply(machine: Machine): (reply: Reply)
    requires IsForward(machine) && !machine.stage.place.Awaiting?
    ensures IsGood(machine, reply)
  {
    match machine.stage.place
    case Invoking => Output("{}")
    case Evaluating(_, _, _) => Truth(true)
    case _ => Done
  }

  lemma ServeActivity(c: Setting, t: Trace, id: string) returns (later: Trace)
    requires Possible(c, t) && IsLive(c, Last(t), id)
    requires var place := Present(c, Last(t).flows[id]).stage.place; !place.Awaiting? && !place.Sleeping?
    ensures Possible(c, later) && Continues(t, later) && IsServed(c, Last(t), Last(later), id)
    ensures NoneRejected(Last(t).world.db, id) ==> NoneRejected(Last(later).world.db, id)
    ensures Present(c, Last(later).flows[id]).memory.status == Present(c, Last(t).flows[id]).memory.status
  {
    LastIsOk(c, t);
    var machine := Present(c, Last(t).flows[id]);
    var start := LiveIsGoing(c, Last(t), id);
    later := Succeed(c, t, id, machine.stage.call, GoodReply(machine));
    ReplyServes(c, Last(t), Last(later), id, GoodReply(machine));
  }

  lemma ServeTimer(c: Setting, t: Trace, id: string) returns (later: Trace)
    requires Possible(c, t) && IsLive(c, Last(t), id) && Present(c, Last(t).flows[id]).stage.place.Sleeping?
    ensures Possible(c, later) && Continues(t, later) && IsServed(c, Last(t), Last(later), id)
    ensures Last(later).world == Last(t).world
    ensures Present(c, Last(later).flows[id]).memory.status == Present(c, Last(t).flows[id]).memory.status
  {
    LastIsOk(c, t);
    var s := Last(t);
    var start := LiveIsGoing(c, s, id);
    later := GoOn(c, t, Answer(id, Done), s.(flows := s.flows[id := TakeReply(s.flows[id], Done)]));
    ReplyServes(c, s, Last(later), id, Done);
  }

  lemma ServeWait(c: Setting, t: Trace, id: string) returns (later: Trace)
    requires Possible(c, t) && IsLive(c, Last(t), id) && Present(c, Last(t).flows[id]).stage.place.Awaiting?
    requires c.isJson("{}")
    ensures Possible(c, later) && Continues(t, later) && IsServed(c, Last(t), Last(later), id)
    ensures NoneRejected(Last(t).world.db, id) ==>
              && NoneRejected(Last(later).world.db, id)
              && Present(c, Last(later).flows[id]).memory.status == Present(c, Last(t).flows[id]).memory.status
  {
    LastIsOk(c, t);
    var node := WaitsForCurrent(c, Last(t), id);
    var ready, signal := GetDecision(c, t, id, node);
    LastIsOk(c, ready);
    later := TakeSignal(c, ready, id, node);
    DecisionServes(c, Last(t), Last(ready), Last(later), id, node, signal);
  }

  lemma WaitsForCurrent(c: Setting, s: System, id: string) returns (node: Node)
    requires SystemOk(c, s) && IsLive(c, s, id) && Present(c, s.flows[id]).stage.place.Awaiting?
    ensures Waits(c, s, id, AwaitDecision(node)) && Present(c, s.flows[id]).memory.current == node
  {
    var start := LiveIsGoing(c, s, id);
    node := Present(c, s.flows[id]).memory.current;
  }

  /** A run that is ready to take its decision, and then has taken it. */
  lemma DecisionServes(c: Setting, s: System, ready: System, s': System, id: string, node: Node, signal: Signal)
    requires IsLive(c, s, id) && Present(c, s.flows[id]).stage.place.Awaiting?
    requires SystemOk(c, ready) && Decides(c, s, ready, id, node, signal) && signal.decision in {Approve, Reject}
    requires ready.world.db.instances == s.world.db.instances && s'.world == ready.world
    requires s'.flows == ready.flows[id := TakeReply(ready.flows[id], Received(signal))]
    ensures IsServed(c, s, s', id)
    ensures signal.decision == Approve ==>
              Present(c, s'.flows[id]).memory.status == Present(c, s.flows[id]).memory.status
  {
    var current := WaitsForCurrent(c, ready, id);
    ReplyServes(c, ready, s', id, Received(signal));
    assert Rank(PlanFor(c, ready.flows[id]), Present(c, ready.flows[id]))
        == Rank(PlanFor(c, s.flows[id]), Present(c, s.flows[id]));
  }

  /** The run of a running instance can get the good reply it waits for. */
  lemma Serve(c: Setting, t: Trace, id: string) returns (later: Trace)
    requires Possible(c, t) && IsLive(c, Last(t), id) && c.isJson("{}")
    ensures Possible(c, later) && Continues(t, later) && IsServed(c, Last(t), Last(later), id)
    ensures NoneRejected(Last(t).world.db, id) ==>
              && NoneRejected(Last(later).world.db, id)
              && Present(c, Last(later).flows[id]).memory.status == Present(c, Last(t).flows[id]).memory.status
  {
    var place := Present(c, Last(t).flows[id]).stage.place;
    if place.Awaiting? {
      later := ServeWait(c, t, id);
    } else if place.Sleeping? {
      later := ServeTimer(c, t, id);
    } else {
      later := ServeActivity(c, t, id);
    }
  }

  /** The run has returned, and the database agrees. */
  predicate HasFinished(c: Setting, s: System, id: string) {
    && id in s.flows && id in s.world.db.instances
    && var stage := Present(c, s.flows[id]).stage;
       && stage.Ended? && stage.outcome.Returned? && stage.outcome.status == s.world.db.instances[id].status
       && stage.outcome.status in {Completed, Rejected}
  }

  lemma ServedIsFinished(c: Setting, s: System, s': System, id: string)
    requires SystemOk(c, s) && IsLive(c, s, id) && IsServed(c, s, s', id)
    requires Present(c, s.flows[id]).stage.place.Finishing?
    ensures HasFinished(c, s', id) && s'.world.db.instances[id].status == Present(c, s.flows[id]).memory.status
  {
    var start := LiveIsGoing(c, s, id);
    FinishingAsks(PlanFor(c, s.flows[id]), start, Present(c, s.flows[id]));
  }

  lemma FinishingAsks(plan: Plan, start: string, machine: Machine)
    requires IsGoing(plan, start, machine) && machine.stage.place.Finishing?
    ensures machine.stage.call.Finish? && machine.memory.status in {Completed, Rejected}
  {
  }

  lemma ServedIsLive(c: Setting, s: System, s': System, id: string)
    requires SystemOk(c, s) && IsLive(c, s, id) && IsServed(c, s, s', id)
    requires !Present(c, s.flows[id]).stage.place.Finishing?
    ensures IsLive(c, s', id)
    ensures Rank(PlanFor(c, s'.flows[id]), Present(c, s'.flows[id]))
            < Rank(PlanFor(c, s.flows[id]), Present(c, s.flows[id]))
  {
    var start := LiveIsGoing(c, s, id);
  }

  /** Reply by good reply, a run in its loop over nodes can come to its end. */
  lemma {:induction false} Finish(c: Setting, t: Trace, id: string) returns (later: Trace)
    requires Possible(c, t) && IsLive(c, Last(t), id) && c.isJson("{}")
    ensures Possible(c, later) && Continues(t, later) && HasFinished(c, Last(later), id)
    ensures NoneRejected(Last(t).world.db, id) && Present(c, Last(t).flows[id]).memory.status == Completed
            ==> Last(later).world.db.instances[id].status == Completed
    decreases Rank(PlanFor(c, Last(t).flows[id]), Present(c, Last(t).flows[id]))
  {
    LastIsOk(c, t);
    var next := Serve(c, t, id);
    if Present(c, Last(t).flows[id]).stage.place.Finishing? {
      ServedIsFinished(c, Last(t), Last(next), id);
      later := next;
    } else {
      ServedIsLive(c, Last(t), Last(next), id);
      later := Finish(c, next, id);
    }
  }

  // ---------- from the start ----------

  /** The start of a launched instance can be delivered, which begins its run. */
  lemma BeginRun(c: Setting, t: Trace, id: string) returns (later: Trace)
    requires Possible(c, t) && Runs(Last(t), id) && id !in Last(t).flows
    ensures Possible(c, later) && Continues(t, later) && IsLive(c, Last(later), id)
    ensures Last(later).world == Last(t).world && Present(c, Last(later).flows[id]).memory.status == Completed
  {
    LastIsOk(c, t);
    var p, input := StartWaits(c, Last(t), id);
    BeginsForward(c.isJson, c.sorter, input);
    DeliveryIsAMove(c, Last(t), p);
    later := GoOn(c, t, Deliver(p), Receive(Last(t), Last(t).world.db.outbox[p]));
  }

  lemma StartWaits(c: Setting, s: System, id: string) returns (p: nat, input: Input)
    requires Inv(c.isJson, s.world) && id in s.world.db.instances && id !in s.flows
    ensures p < |s.world.db.outbox| && ValidInput(c.isJson, input)
    ensures Receive(s, s.world.db.outbox[p]) == s.(flows := s.flows[id := Flow(input, [], [], false)])
  {
    p := L.EventFor(s.world, Started(id));
    input := StartBegins(c, s, s.world.db.outbox[p]);
  }

  lemma StartBegins(c: Setting, s: System, e: T.Event) returns (input: Input)
    requires Inv(c.isJson, s.world) && e in s.world.db.outbox && e.StartRequested? && e.started.id !in s.flows
    ensures Receive(s, e) == s.(flows := s.flows[e.started.id := Flow(input, [], [], false)])
    ensures ValidInput(c.isJson, input)
  {
    StartFits(c, s, e);
    input := DecodeStart(EncodeStart(e.started, e.definition)).value;
  }

  lemma DeliveryIsAMove(c: Setting, s: System, p: nat)
    requires p < |s.world.db.outbox|
    ensures Moves(c, s, Deliver(p), Receive(s, s.world.db.outbox[p]))
  {
  }

  /** No task is decided before its run has begun. */
  lemma NoTaskBeforeRun(c: Setting, s: System, id: string)
    requires SystemOk(c, s) && id !in s.flows
    ensures NoneRejected(s.world.db, id)
  {
    forall x | x in s.world.db.tasks ensures s.world.db.tasks[x].instanceId != id {
      assert TaskFits(c, s, x);
    }
  }

  /**
   Completion law.  From every reachable state, however many events and replies were lost, duplicated or delayed, a
   running instance whose run has not failed can still be brought to an end that run and database agree on; and it can
   be completed if none of its tasks was rejected.
   */
  lemma CompletionLaw(c: Setting, t: Trace, id: string) returns (later: Trace)
    requires Possible(c, t) && Runs(Last(t), id) && c.isJson("{}")
    requires id in Last(t).flows ==> IsForward(Present(c, Last(t).flows[id]))
    ensures Possible(c, later) && Continues(t, later) && HasFinished(c, Last(later), id)
    ensures NoneRejected(Last(t).world.db, id)
            && (id in Last(t).flows ==> Present(c, Last(t).flows[id]).memory.status == Completed)
            ==> Last(later).world.db.instances[id].status == Completed
  {
    var begun := t;
    if id !in Last(t).flows {
      begun := BeginRun(c, t, id);
    }
    later := Finish(c, begun, id);
  }

  /** Every launched instance whose start has not yet arrived can be completed. */
  lemma StartedCanComplete(c: Setting, t: Trace, id: string) returns (later: Trace)
    requires Possible(c, t) && Runs(Last(t), id) && id !in Last(t).flows && c.isJson("{}")
    ensures Possible(c, later) && Continues(t, later) && HasFinished(c, Last(later), id)
    ensures Last(later).world.db.instances[id].status == Completed
  {
    LastIsOk(c, t);
    NoTaskBeforeRun(c, Last(t), id);
    later := CompletionLaw(c, t, id);
  }

  // ---------- failures ----------

  /** A wait can time out, and an activity of the forward run can fail, at any moment; the run then undoes its work. */
  lemma CanFail(c: Setting, s: System, id: string) returns (reply: Reply, s': System)
    requires SystemOk(c, s) && id in s.flows && IsForward(Present(c, s.flows[id]))
    requires !Present(c, s.flows[id]).stage.call.Sleep?
    ensures reply == if Present(c, s.flows[id]).stage.call.AwaitDecision? then TimedOut else Denied
    ensures Moves(c, s, Answer(id, reply), s') && id in s'.flows && IsFailing(Present(c, s'.flows[id]))
  {
    var f := s.flows[id];
    reply := if Present(c, f).stage.call.AwaitDecision? then TimedOut else Denied;
    s' := s.(flows := s.flows[id := TakeReply(f, reply)]);
    ReplayIsSound(c.sorter, f.input, f.history);
    OneMore(c, f, reply);
    FailedReplyFails(PlanFor(c, f), Present(c, f), reply);
  }

  lemma FailedReplyFails(plan: Plan, machine: Machine, reply: Reply)
    requires Sound(machine) && IsForward(machine) && !machine.stage.place.Sleeping?
    requires reply == if machine.stage.place.Awaiting? then TimedOut else Denied
    ensures IsFailing(Resume(plan, machine, reply))
  {
    var m := Noted(machine, reply);
    match machine.stage.place
    case Creating => UndoRank(m, m.completed, TaskNotCreated(m.current.id));
    case Awaiting => UndoRank(m, m.completed, ApprovalTimeout);
    case Invoking => UndoRank(m, m.completed, InvokeFailed(m.current.id));
    case Evaluating(_, _, _) => UndoRank(m, m.completed, ConditionFailed);
    case Finishing => UndoRank(m, m.completed, FinishFailed);
  }

  /** The run compensates or reports its failure. */
  predicate IsFailing(machine: Machine) {
    machine.stage.Asking? && (machine.stage.place.Compensating? || machine.stage.place.Reporting?)
  }

  function FailureRank(machine: Machine): nat {
    if machine.stage.Asking? && machine.stage.place.Compensating? then |machine.stage.place.left| + 1 else 0
  }

  lemma {:induction false} UndoRank(m: Memory, left: seq<Node>, e: RunError)
    ensures IsFailing(Undo(m, left, e)) && FailureRank(Undo(m, left, e)) <= |left|
  {
    if left != [] {
      UndoRank(m, left[..|left| - 1], e);
    }
  }

  lemma CompensationShrinks(c: Setting, f: Flow)
    requires Present(c, f).stage.Asking? && Present(c, f).stage.place.Compensating?
    ensures var next := Present(c, TakeReply(f, Denied));
            IsFailing(next) && FailureRank(next) < FailureRank(Present(c, f))
  {
    var machine := Present(c, f);
    OneMore(c, f, Denied);
    UndoRank(machine.memory.(log := machine.memory.log + [Exchange(machine.stage.call, Denied)]),
             machine.stage.place.left, machine.stage.place.error);
  }

  /** A run that has failed can end, with its instance stored as failed. */
  lemma {:induction false} FailureLaw(c: Setting, t: Trace, id: string) returns (later: Trace)
    requires Possible(c, t) && Runs(Last(t), id) && id in Last(t).flows && IsFailing(Present(c, Last(t).flows[id]))
    ensures Possible(c, later) && Continues(t, later) && id in Last(later).flows
    ensures var stage := Present(c, Last(later).flows[id]).stage; stage.Ended? && stage.outcome.Raised?
    ensures id in Last(later).world.db.instances && Last(later).world.db.instances[id].status == Failed
    decreases FailureRank(Present(c, Last(t).flows[id]))
  {
    var s := Last(t);
    var f := s.flows[id];
    var call := Present(c, f).stage.call;
    ReplayIsSound(c.sorter, f.input, f.history);
    if call.Compensate? {
      CompensationShrinks(c, f);
      var next := GoOn(c, t, Answer(id, Denied), s.(flows := s.flows[id := TakeReply(f, Denied)]));
      later := FailureLaw(c, next, id);
    } else {
      later := Succeed(c, t, id, call, Done);
      OneMore(c, f, Done);
      assert Present(c, Last(later).flows[id]) == Present(c, TakeReply(f, Done));
    }
  }
}
