/**
 The whole engine: the database, the workflow runs, and the protocol between them.  Events of the outbox arrive any
 number of times, in any order, or never.  Each activity of a run may be attempted many times; attempts overlap, fail
 before or after they take effect, and outlive the call they belong to.  User operations interleave with all of it.
 */
module Protocol {
  import opened Model
  import opened Runtime
  import opened RuntimeLaws
  import opened Histories
  import opened Events
  import opened Ledger
  import L = LedgerLaws
  import S = Service
  import T = Tables

  /** How far an attempt of an activity has come.  `Guarded`: the instance was moved to the node and may be served. */
  datatype Progress = Begun | Guarded | Succeeded(reply: Reply) | CallFailed | Lost

  /** An attempt of the activity that the run of instance `id` asked for after `position` replies. */
  datatype Attempt = Attempt(id: string, position: nat, call: Call, progress: Progress)

  datatype Flow = Flow(input: Input, history: seq<Reply>, mailbox: seq<Signal>, cancelRequested: bool)

  /** `upstream` lists the attempts that called an upstream service, in order of the calls. */
  datatype System = System(world: S.World, flows: map<string, Flow>, attempts: seq<Attempt>, upstream: seq<nat>)

  /** What is left open: JSON decoding and the sort of the program. */
  datatype Setting = Setting(isJson: string -> bool, sorter: seq<Edge> -> seq<Edge>)

  datatype Move =
    | User(step: L.Step)
    | Deliver(event: nat)
    | Begin(id: string)
    | CreateRow(attempt: nat, newId: string, commits: bool, reported: bool)
    | Guard(attempt: nat, commits: bool, reported: bool)
    | CallUpstream(attempt: nat, response: Option<string>)
    | Judge(attempt: nat, answer: Option<bool>)
    | Conclude(attempt: nat, message: string, now: int, commits: bool, reported: bool)
    | Answer(id: string, reply: Reply)

  function OriginOf(c: Setting, f: Flow): Origin {
    Origin(c.sorter, f.input)
  }

  /** Where the run is now. */
  function Present(c: Setting, f: Flow): Machine {
    Replay(c.sorter, f.input, f.history)
  }

  // ---------- event delivery ----------

  /**
   The command handler.  One workflow exists per instance: a second start, and a cancellation or signal before the
   start, change nothing.
   */
  function Receive(s: System, e: T.Event): System {
    match e
    case StartRequested(i, d) =>
      var start := DecodeStart(EncodeStart(i, d));
      if start.Err? || i.id in s.flows then s else s.(flows := s.flows[i.id := Flow(start.value, [], [], false)])
    case CancellationRequested(i, _) =>
      if i.id in s.flows then s.(flows := s.flows[i.id := s.flows[i.id].(cancelRequested := true)]) else s
    case TaskCompleted(t) =>
      var signal := DecodeSignal(EncodeTask(t));
      if signal.Ok? && t.instanceId in s.flows then
        var f := s.flows[t.instanceId];
        s.(flows := s.flows[t.instanceId := f.(mailbox := f.mailbox + [signal.value])])
      else s
    case _ => s
  }

  // ---------- activities ----------

  predicate IsActivity(call: Call) {
    !call.AwaitDecision? && !call.Sleep?
  }

  /** The task row that `CreateApprovalTask` inserts. */
  function TaskFor(input: Input, node: Node, newId: string): T.Task {
    T.Task(newId, input.tenantId, input.applicationId, input.instanceId, node.id, node.name, node.assigneeType,
           if node.assigneeType == Starter then input.starterId else node.assignee, "", Pending, T.UNDECIDED, "",
           DefaultJson(input.variables), "{}", None, 1)
  }

  function Progressed(s: System, k: nat, progress: Progress): seq<Attempt>
    requires k < |s.attempts|
  {
    s.attempts[k := s.attempts[k].(progress := progress)]
  }

  predicate IsTransaction(move: Move) {
    move.CreateRow? || move.Guard? || move.Conclude?
  }

  /** The action of `CreateApprovalTask`, `UpdateInstanceNode` or `FinishInstance` that attempt `k` runs. */
  function ActionOf(s: System, move: Move): S.Action
    requires IsTransaction(move) && move.attempt < |s.attempts|
    requires s.attempts[move.attempt].id in s.flows
    requires var call := s.attempts[move.attempt].call;
             if move.CreateRow? then call.CreateTask? else if move.Guard? then call.Invoke? else call.Finish?
  {
    var a := s.attempts[move.attempt];
    var input := s.flows[a.id].input;
    match move
    case CreateRow(_, newId, _, _) => S.NewTask(TaskFor(input, a.call.node, newId))
    case Guard(_, _, _) => S.MoveTo(input.tenantId, input.applicationId, input.instanceId, a.call.node.id)
    case Conclude(_, message, now, _, _) =>
      S.Conclude(input.tenantId, input.applicationId, input.instanceId, a.call.status, DefaultJson(a.call.result),
                 message, now)
  }

  /** Whether the transaction of the attempt succeeds, as the activity sees it. */
  predicate Accepted(db: T.Database, action: S.Action, commits: bool)
    requires action.NewTask? || action.MoveTo? || action.Conclude?
  {
    match action
    case NewTask(t) => T.CreateTask(db, t, commits).result.Ok?
    case MoveTo(tenantId, applicationId, id, nodeId) =>
      T.UpdateInstanceNode(db, tenantId, applicationId, id, nodeId, commits).result.Ok?
    case Conclude(tenantId, applicationId, id, status, result, message, now) =>
      var r := T.FinishInstance(db, tenantId, applicationId, id, status, result, message, now, commits).result;
      r.Ok? || (r == Err(Conflict) && status == Failed)
  }

  /** Whether the attempt of `move` is at the point where the move is its next effect. */
  predicate Ready(s: System, move: Move)
    requires move.CreateRow? || move.Guard? || move.CallUpstream? || move.Judge? || move.Conclude?
  {
    && move.attempt < |s.attempts| && s.attempts[move.attempt].id in s.flows
    && var a := s.attempts[move.attempt];
       match move
       case CreateRow(_, _, _, _) => a.call.CreateTask? && a.progress == Begun
       case Guard(_, _, _) => a.call.Invoke? && a.progress == Begun
       case CallUpstream(_, _) =>
         (a.call.Invoke? && a.progress == Guarded) || (a.call.Compensate? && a.progress == Begun)
       case Judge(_, _) => a.call.Evaluate? && a.progress == Begun
       case Conclude(_, _, _, _, _) => a.call.Finish? && a.progress == Begun
  }

  // ---------- replies ----------

  /** A success is reported to a run only when an attempt of the very call succeeded; a failure at any time. */
  predicate Replies(s: System, id: string, call: Call, reply: Reply)
    requires id in s.flows
  {
    var f := s.flows[id];
    match call
    case AwaitDecision(_) =>
      match reply {
        case Received(signal) => f.mailbox != [] && signal == f.mailbox[0]
        case TimedOut => true
        case Denied => f.cancelRequested
        case _ => false
      }
    case Sleep(_) => reply == Done || (reply == Denied && f.cancelRequested)
    case _ =>
      reply == Denied || exists k ::
        0 <= k < |s.attempts| && s.attempts[k] == Attempt(id, |f.history|, call, Succeeded(reply))
  }

  function TakeReply(f: Flow, reply: Reply): Flow {
    f.(history := f.history + [reply],
       mailbox := if reply.Received? && f.mailbox != [] then f.mailbox[1..] else f.mailbox)
  }

  // ---------- steps and runs of the system ----------

  /** A user operation: only activities create tasks, move instances and finish them. */
  ghost predicate Uses(c: Setting, s: System, step: L.Step, s': System) {
    && step.env.isJson == c.isJson && S.Admissible(step.env, s.world, step.action)
    && !(step.action.NewTask? || step.action.MoveTo? || step.action.Conclude?)
    && s' == s.(world := S.Next(s.world, step.action, step.commits))
  }

  /** A new attempt of the activity that a run waits for. */
  ghost predicate Begins(c: Setting, s: System, id: string, s': System) {
    && id in s.flows && Present(c, s.flows[id]).stage.Asking? && IsActivity(Present(c, s.flows[id]).stage.call)
    && s' == s.(attempts :=
                  s.attempts + [Attempt(id, |s.flows[id].history|, Present(c, s.flows[id]).stage.call, Begun)])
  }

  /** An attempt calls its upstream service. */
  predicate Calls(s: System, k: nat, response: Option<string>, s': System) {
    && Ready(s, CallUpstream(k, response))
    && var reply := if s.attempts[k].call.Invoke? && response.Some? then Output(response.value) else Done;
       s' == s.(attempts := Progressed(s, k, if response.Some? then Succeeded(reply) else CallFailed),
                upstream := s.upstream + [k])
  }

  /** An attempt evaluates its condition. */
  predicate Judges(s: System, k: nat, answer: Option<bool>, s': System) {
    && Ready(s, Judge(k, answer))
    && s' == s.(attempts := Progressed(s, k, if answer.Some? then Succeeded(Truth(answer.value)) else Lost))
  }

  /** A run takes a reply. */
  ghost predicate Takes(c: Setting, s: System, id: string, reply: Reply, s': System) {
    && id in s.flows && Present(c, s.flows[id]).stage.Asking?
    && Replies(s, id, Present(c, s.flows[id]).stage.call, reply)
    && s' == s.(flows := s.flows[id := TakeReply(s.flows[id], reply)])
  }

  /** An attempt runs its transaction. */
  predicate Acts(s: System, move: Move, s': System)
    requires IsTransaction(move)
  {
    && Ready(s, move)
    && var action := ActionOf(s, move);
       var done := Accepted(s.world.db, action, move.commits) && move.reported;
       s' == s.(world := S.Next(s.world, action, move.commits),
                attempts := Progressed(s, move.attempt,
                                       if !done then Lost else if move.Guard? then Guarded else Succeeded(Done)))
  }

  ghost predicate Moves(c: Setting, s: System, move: Move, s': System) {
    match move
    case User(step) => Uses(c, s, step, s')
    case Deliver(event) => event < |s.world.db.outbox| && s' == Receive(s, s.world.db.outbox[event])
    case Begin(id) => Begins(c, s, id, s')
    case CallUpstream(k, response) => Calls(s, k, response, s')
    case Judge(k, answer) => Judges(s, k, answer, s')
    case Answer(id, reply) => Takes(c, s, id, reply, s')
    case CreateRow(_, _, _, _) => Acts(s, move, s')
    case Guard(_, _, _) => Acts(s, move, s')
    case Conclude(_, _, _, _, _) => Acts(s, move, s')
  }

  datatype Trace = Trace(states: seq<System>, moves: seq<Move>)

  ghost predicate MoveAt(c: Setting, t: Trace, n: nat)
    requires n < |t.moves| == |t.states| - 1
  {
    Moves(c, t.states[n], t.moves[n], t.states[n + 1])
  }

  function Empty(): System {
    System(S.Initial(), map[], [], [])
  }

  /** A behaviour of the system from its empty state. */
  ghost predicate Possible(c: Setting, t: Trace) {
    && IsSorter(c.sorter) && |t.states| == |t.moves| + 1 && t.states[0] == Empty()
    && forall n: nat {:trigger MoveAt(c, t, n)} | n < |t.moves| :: MoveAt(c, t, n)
  }

  // ---------- facts that stay ----------

  /** The signal reports a decided task row of the instance. */
  predicate Genuine(db: T.Database, id: string, signal: Signal) {
    && signal.taskId in db.tasks
    && var t := db.tasks[signal.taskId];
       && t.instanceId == id && t.nodeId == signal.nodeId && IsDecided(t) && t.decision == signal.decision
          && t.output == signal.output
  }

  /** The instance has a task row for the node. */
  predicate HasRow(db: T.Database, id: string, nodeId: string) {
    exists t :: t in db.tasks && db.tasks[t].instanceId == id && db.tasks[t].nodeId == nodeId
  }

  predicate IsCancelled(db: T.Database, id: string) {
    id in db.instances && db.instances[id].status == Cancelled
  }

  /**
   A finish with `status` was accepted: the instance has that status, or has ended otherwise and `status` is failed.
   */
  predicate Settled(db: T.Database, id: string, status: InstanceStatus) {
    && id in db.instances && status != Running
    && (db.instances[id].status == status || (status == Failed && db.instances[id].status != Running))
  }

  /** The run has asked for the task of a node before it had `bound` replies. */
  ghost predicate Opened(o: Origin, history: seq<Reply>, bound: nat, nodeId: string) {
    exists p: nat, n: Node {:trigger Asked(o, history, p, CreateTask(n))} ::
      p < bound && Asked(o, history, p, CreateTask(n)) && n.id == nodeId
  }

  ghost predicate AskedToFinish(o: Origin, history: seq<Reply>, status: InstanceStatus, result: string) {
    exists p: nat, call: Call {:trigger Asked(o, history, p, call)} ::
      Asked(o, history, p, call) && call.Finish? && call.status == status && DefaultJson(call.result) == result
  }

  /** An upstream call was made for the service call that was pending at `position`. */
  predicate Served(s: System, id: string, position: nat, call: Call) {
    exists q :: 0 <= q < |s.upstream| && s.upstream[q] < |s.attempts|
                && s.attempts[s.upstream[q]].id == id && s.attempts[s.upstream[q]].position == position
                   && s.attempts[s.upstream[q]].call == call
  }

  // ---------- the invariant ----------

  /** The run executes the pinned revision of its instance, for the starter and the variables of the instance. */
  predicate Executes(db: T.Database, id: string, input: Input) {
    && id in db.instances
    && var i := db.instances[id];
       && (i.definitionId, i.definitionRevision) in db.revisions
       && var r := db.revisions[(i.definitionId, i.definitionRevision)];
          input == Input(id, i.tenantId, i.applicationId, i.starterId, i.variables, CarryAll(r.nodes), r.edges)
  }

  ghost predicate FlowFits(c: Setting, s: System, id: string) {
    && id in s.flows && Executes(s.world.db, id, s.flows[id].input) && ValidInput(c.isJson, s.flows[id].input)
    && (s.flows[id].cancelRequested ==> IsCancelled(s.world.db, id))
  }

  ghost predicate MailFits(c: Setting, s: System, id: string, signal: Signal) {
    && id in s.flows && Genuine(s.world.db, id, signal)
    && Opened(OriginOf(c, s.flows[id]), s.flows[id].history, |s.flows[id].history| + 1, signal.nodeId)
  }

  /** What the reply at position `k` reports about `call` is true. */
  ghost predicate IsTrueReply(c: Setting, s: System, id: string, k: nat, call: Call)
    requires id in s.flows && k < |s.flows[id].history|
  {
    var f := s.flows[id];
    match call
    case AwaitDecision(_) =>
      && (f.history[k] == Denied ==> IsCancelled(s.world.db, id))
      && (f.history[k].Received? ==>
            && Genuine(s.world.db, id, f.history[k].signal)
            && Opened(OriginOf(c, f), f.history, k, f.history[k].signal.nodeId))
    case CreateTask(node) => f.history[k] == Done ==> HasRow(s.world.db, id, node.id)
    case Sleep(_) => f.history[k] != Done ==> IsCancelled(s.world.db, id)
    case Finish(status, _, _) => f.history[k] == Done ==> Settled(s.world.db, id, status)
    case Invoke(_) => f.history[k].Output? ==> Served(s, id, k, call)
    case _ => true
  }

  /** The reply at position `k` was the reply to a pending call, and what it reports is true. */
  ghost predicate ReplyFits(c: Setting, s: System, id: string, k: nat) {
    && id in s.flows && k < |s.flows[id].history|
    && var f := s.flows[id];
       var before := Moment(OriginOf(c, f), f.history, k);
       && before.stage.Asking?
       && IsTrueReply(c, s, id, k, before.stage.call)
  }

  ghost predicate AttemptFits(c: Setting, s: System, k: nat) {
    && k < |s.attempts|
    && var a := s.attempts[k];
       && a.id in s.flows && Asked(OriginOf(c, s.flows[a.id]), s.flows[a.id].history, a.position, a.call)
       && (a.call.Finish? && a.progress.Succeeded? ==> Settled(s.world.db, a.id, a.call.status))
       && (a.call.Invoke? && a.progress.Succeeded? ==> k in s.upstream)
       && (a.call.CreateTask? && a.progress.Succeeded? ==> HasRow(s.world.db, a.id, a.call.node.id))
       && (a.progress.Succeeded? ==> IsSuccess(a.call, a.progress.reply))
  }

  /** A success of the activity that was called. */
  predicate IsSuccess(call: Call, reply: Reply) {
    match call
    case CreateTask(_) => reply == Done
    case Invoke(_) => reply.Output?
    case Evaluate(_, _) => reply.Truth?
    case Finish(_, _, _) => reply == Done
    case Compensate(_) => reply == Done
    case _ => false
  }

  /** The node of the pinned revision that the task is for. */
  predicate IsTaskFor(i: T.Instance, node: Node, t: T.Task) {
    && node.kind == Approval && t.nodeId == node.id && t.name == node.name && t.assigneeType == node.assigneeType
    && t.assignee == (if node.assigneeType == Starter then i.starterId else node.assignee)
    && t.input == (if i.variables == "" then "{}" else i.variables)
  }

  /**
   The task is for an approval of the revision its instance pins: it has the name and the assignee of that node, or is
   assigned to the starter where the node says so, and has the variables of the instance as its input.
   */
  predicate IsAssigned(db: T.Database, t: T.Task) {
    && t.instanceId in db.instances
    && var i := db.instances[t.instanceId];
       && (i.definitionId, i.definitionRevision) in db.revisions
       && exists node :: node in db.revisions[(i.definitionId, i.definitionRevision)].nodes && IsTaskFor(i, node, t)
  }

  /** A task row exists only where the run of its instance asked for it. */
  ghost predicate TaskFits(c: Setting, s: System, id: string) {
    && id in s.world.db.tasks
    && var t := s.world.db.tasks[id];
       && t.instanceId in s.flows
       && Opened(OriginOf(c, s.flows[t.instanceId]), s.flows[t.instanceId].history, |s.flows[t.instanceId].history| + 1,
          t.nodeId)
  }

  /** An instance ends other than by cancellation only where its run asked for that, with that result. */
  ghost predicate EndFits(c: Setting, s: System, id: string) {
    && id in s.world.db.instances
    && var status := s.world.db.instances[id].status;
       status in {Running, InstanceStatus.Cancelled}
       || (id in s.flows && AskedToFinish(OriginOf(c, s.flows[id]), s.flows[id].history, status,
          s.world.db.instances[id].result))
  }

  /** An upstream call is a guarded forward call, or the compensation of an earlier forward call of the same run. */
  ghost predicate UpstreamFits(s: System, q: nat) {
    && q < |s.upstream| && s.upstream[q] < |s.attempts|
    && var a := s.attempts[s.upstream[q]];
       match a.call
       case Invoke(_) => a.progress.Succeeded? || a.progress == CallFailed
       case Compensate(n) =>
         exists p :: 0 <= p < q && s.upstream[p] < |s.attempts|
                     && s.attempts[s.upstream[p]].id == a.id && s.attempts[s.upstream[p]].call == Invoke(n)
       case _ => false
  }

  ghost predicate FlowsFit(c: Setting, s: System) {
    forall id {:trigger FlowFits(c, s, id)} | id in s.flows :: FlowFits(c, s, id)
  }

  ghost predicate MailsFit(c: Setting, s: System) {
    forall id, signal {:trigger MailFits(c, s, id, signal)} | id in s.flows && signal in s.flows[id].mailbox ::
      MailFits(c, s, id, signal)
  }

  ghost predicate RepliesFit(c: Setting, s: System) {
    forall id, k: nat {:trigger ReplyFits(c, s, id, k)} | id in s.flows && k < |s.flows[id].history| ::
      ReplyFits(c, s, id, k)
  }

  ghost predicate AttemptsFit(c: Setting, s: System) {
    forall k: nat {:trigger AttemptFits(c, s, k)} | k < |s.attempts| :: AttemptFits(c, s, k)
  }

  ghost predicate TasksFit(c: Setting, s: System) {
    && (forall id {:trigger TaskFits(c, s, id)} | id in s.world.db.tasks :: TaskFits(c, s, id))
    && (forall t {:trigger IsAssigned(s.world.db, t)} | t in s.world.seenTasks && t.version == 1 ::
          IsAssigned(s.world.db, t))
  }

  ghost predicate EndsFit(c: Setting, s: System) {
    forall id {:trigger EndFits(c, s, id)} | id in s.world.db.instances :: EndFits(c, s, id)
  }

  ghost predicate UpstreamsFit(s: System) {
    forall q: nat {:trigger UpstreamFits(s, q)} | q < |s.upstream| :: UpstreamFits(s, q)
  }

  ghost predicate SystemOk(c: Setting, s: System) {
    && IsSorter(c.sorter) && Inv(c.isJson, s.world)
    && FlowsFit(c, s) && MailsFit(c, s) && RepliesFit(c, s) && AttemptsFit(c, s)
    && TasksFit(c, s) && EndsFit(c, s) && UpstreamsFit(s)
  }

  // ---------- what a step never takes back ----------

  predicate IsOver(progress: Progress) {
    progress.Succeeded? || progress == CallFailed || progress == Lost
  }

  predicate SameAttempt(a: Attempt, b: Attempt) {
    a.id == b.id && a.position == b.position && a.call == b.call && (IsOver(a.progress) ==> a.progress == b.progress)
  }

  /** The database evolves, histories and lists grow, and no run changes its input. */
  ghost predicate Grows(s: System, s': System) {
    && Evolves(s.world.db, s'.world.db)
    && (forall id {:trigger s'.flows[id]} {:trigger id in s.flows} | id in s.flows ::
          && id in s'.flows && s'.flows[id].input == s.flows[id].input && s.flows[id].history <= s'.flows[id].history
          && (s.flows[id].cancelRequested ==> s'.flows[id].cancelRequested))
    && |s.attempts| <= |s'.attempts|
    && (forall k {:trigger s'.attempts[k]} {:trigger s.attempts[k]} | 0 <= k < |s.attempts| ::
       SameAttempt(s.attempts[k], s'.attempts[k]))
    && s.upstream <= s'.upstream
  }
}
