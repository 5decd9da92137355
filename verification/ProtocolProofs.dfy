/** Every step of the system keeps the invariant of `Protocol`. */
module ProtocolProofs {
  import opened Text
  import opened Model
  import V = Validation
  import opened Runtime
  import opened RuntimeLaws
  import opened Histories
  import opened Events
  import opened Ledger
  import opened Protocol
  import L = LedgerLaws
  import P = LedgerProofs
  import S = Service
  import T = Tables

  // ---------- facts of single transactions ----------

  lemma WorldAdvances(env: S.Env, w: S.World, a: S.Action, commits: bool)
    requires Inv(env.isJson, w) && S.Admissible(env, w, a)
    ensures Inv(env.isJson, S.Next(w, a, commits)) && Evolves(w.db, S.Next(w, a, commits).db)
  {
    P.KeepsInv(env, w, a, commits);
    P.ActionEvolves(env, w, a, commits);
  }

  lemma NewRows(db: T.Database, a: S.Action, commits: bool)
    ensures var later := S.Run(db, a, commits);
            forall t | t in later.tasks && t !in db.tasks ::
              a.NewTask? && later.tasks[t].instanceId == a.task.instanceId && later.tasks[t].nodeId == a.task.nodeId
  {
  }

  predicate SameOrEnded(db: T.Database, later: T.Database, a: S.Action, id: string)
    requires id in later.instances
  {
    || later.instances[id].status in {Running, InstanceStatus.Cancelled}
    || (id in db.instances && later.instances[id].status == db.instances[id].status
       && later.instances[id].result == db.instances[id].result)
    || (a.Conclude? && a.id == id && later.instances[id].status == a.status && later.instances[id].result == a.result)
  }

  lemma NewEnding(env: S.Env, w: S.World, a: S.Action, commits: bool, id: string)
    requires S.Admissible(env, w, a) && id in S.Run(w.db, a, commits).instances
    ensures SameOrEnded(w.db, S.Run(w.db, a, commits), a, id)
  {
    if a.Conclude? {
      FinishEnds(w.db, a, commits, id);
    } else if !P.MovesInstance(a) {
      assert S.Run(w.db, a, commits).instances == w.db.instances;
    }
  }

  lemma FinishEnds(db: T.Database, a: S.Action, commits: bool, id: string)
    requires a.Conclude? && id in S.Run(db, a, commits).instances
    ensures SameOrEnded(db, S.Run(db, a, commits), a, id)
  {
  }

  /** An accepted finish has settled the instance. */
  lemma FinishSettles(db: T.Database, a: S.Action, commits: bool)
    requires a.Conclude? && a.status != Running && Accepted(db, a, commits)
    ensures Settled(S.Run(db, a, commits), a.id, a.status)
  {
  }

  /** An accepted creation has left a row for the node, its own or an earlier one. */
  lemma CreationHasRow(db: T.Database, a: S.Action, commits: bool)
    requires a.NewTask? && Accepted(db, a, commits)
    ensures HasRow(S.Run(db, a, commits), a.task.instanceId, a.task.nodeId)
  {
    var later := S.Run(db, a, commits);
    if T.HasTask(db, a.task) {
      var t :| t in db.tasks
               && T.IsTaskOf(db.tasks[t], a.task.tenantId, a.task.applicationId, a.task.instanceId, a.task.nodeId);
      assert t in later.tasks;
    } else {
      assert a.task.id in later.tasks;
    }
  }

  // ---------- facts that stay ----------

  lemma RowStays(db: T.Database, later: T.Database, id: string, nodeId: string)
    requires Evolves(db, later) && HasRow(db, id, nodeId)
    ensures HasRow(later, id, nodeId)
  {
    var t :| t in db.tasks && db.tasks[t].instanceId == id && db.tasks[t].nodeId == nodeId;
    assert t in later.tasks && SameIdentity(db.tasks[t], later.tasks[t]);
  }

  lemma AskedStays(o: Origin, history: seq<Reply>, later: seq<Reply>, p: nat, call: Call)
    requires history <= later && Asked(o, history, p, call)
    ensures Asked(o, later, p, call)
  {
    assert later[..p] == history[..p];
  }

  lemma OpenedStays(o: Origin, history: seq<Reply>, later: seq<Reply>, bound: nat, wider: nat, nodeId: string)
    requires history <= later && bound <= wider && Opened(o, history, bound, nodeId)
    ensures Opened(o, later, wider, nodeId)
  {
    var p: nat, n: Node :| p < bound && Asked(o, history, p, CreateTask(n)) && n.id == nodeId;
    AskedStays(o, history, later, p, CreateTask(n));
  }

  lemma AskedToFinishStays(o: Origin, history: seq<Reply>, later: seq<Reply>, status: InstanceStatus, result: string)
    requires history <= later && AskedToFinish(o, history, status, result)
    ensures AskedToFinish(o, later, status, result)
  {
    var p: nat, call: Call :|
      Asked(o, history, p, call) && call.Finish? && call.status == status && DefaultJson(call.result) == result;
    AskedStays(o, history, later, p, call);
  }

  lemma GenuineStays(db: T.Database, later: T.Database, id: string, signal: Signal)
    requires Evolves(db, later) && Genuine(db, id, signal)
    ensures Genuine(later, id, signal)
  {
  }

  lemma CancelledStays(db: T.Database, later: T.Database, id: string)
    requires Evolves(db, later) && IsCancelled(db, id)
    ensures IsCancelled(later, id)
  {
  }

  lemma SettledStays(db: T.Database, later: T.Database, id: string, status: InstanceStatus)
    requires Evolves(db, later) && Settled(db, id, status)
    ensures Settled(later, id, status)
  {
  }

  lemma ServedStays(s: System, s': System, id: string, position: nat, call: Call)
    requires Grows(s, s') && Served(s, id, position, call)
    ensures Served(s', id, position, call)
  {
    var q :| 0 <= q < |s.upstream| && s.upstream[q] < |s.attempts|
             && s.attempts[s.upstream[q]].id == id && s.attempts[s.upstream[q]].position == position
                && s.attempts[s.upstream[q]].call == call;
    assert s'.upstream[q] == s.upstream[q] && SameAttempt(s.attempts[s.upstream[q]], s'.attempts[s.upstream[q]]);
  }

  lemma FlowStays(c: Setting, s: System, s': System, id: string)
    requires Grows(s, s') && FlowFits(c, s, id) && (s'.flows[id].cancelRequested ==> s.flows[id].cancelRequested)
    ensures FlowFits(c, s', id)
  {
    assert SameLaunch(s.world.db.instances[id], s'.world.db.instances[id]);
    if s'.flows[id].cancelRequested {
      CancelledStays(s.world.db, s'.world.db, id);
    }
  }

  lemma MailStays(c: Setting, s: System, s': System, id: string, signal: Signal)
    requires Grows(s, s') && MailFits(c, s, id, signal)
    ensures MailFits(c, s', id, signal)
  {
    GenuineStays(s.world.db, s'.world.db, id, signal);
    OpenedStays(OriginOf(c, s.flows[id]), s.flows[id].history, s'.flows[id].history,
                |s.flows[id].history| + 1, |s'.flows[id].history| + 1, signal.nodeId);
  }

  lemma ReplyStays(c: Setting, s: System, s': System, id: string, k: nat)
    requires Grows(s, s') && ReplyFits(c, s, id, k)
    ensures ReplyFits(c, s', id, k)
  {
    var f, f' := s.flows[id], s'.flows[id];
    assert f'.history[..k] == f.history[..k] && f'.history[k] == f.history[k];
    var db, db' := s.world.db, s'.world.db;
    var call := Moment(OriginOf(c, f), f.history, k).stage.call;
    if IsCancelled(db, id) {
      CancelledStays(db, db', id);
    }
    match call
    case AwaitDecision(_) =>
      if f.history[k].Received? {
        GenuineStays(db, db', id, f.history[k].signal);
        OpenedStays(OriginOf(c, f), f.history, f'.history, k, k, f.history[k].signal.nodeId);
      }
    case CreateTask(node) =>
      if f.history[k] == Done {
        RowStays(db, db', id, node.id);
      }
    case Finish(status, _, _) =>
      if f.history[k] == Done {
        SettledStays(db, db', id, status);
      }
    case Invoke(_) =>
      if f.history[k].Output? {
        ServedStays(s, s', id, k, call);
      }
    case _ =>
  }

  lemma AttemptStays(c: Setting, s: System, s': System, k: nat)
    requires Grows(s, s') && AttemptFits(c, s, k)
    requires s'.attempts[k].progress == s.attempts[k].progress
    ensures AttemptFits(c, s', k)
  {
    var a := s.attempts[k];
    assert SameAttempt(a, s'.attempts[k]);
    AskedStays(OriginOf(c, s.flows[a.id]), s.flows[a.id].history, s'.flows[a.id].history, a.position, a.call);
    if a.call.Finish? && a.progress.Succeeded? {
      SettledStays(s.world.db, s'.world.db, a.id, a.call.status);
    }
    if a.call.CreateTask? && a.progress.Succeeded? {
      RowStays(s.world.db, s'.world.db, a.id, a.call.node.id);
    }
  }

  lemma TaskStays(c: Setting, s: System, s': System, id: string)
    requires Grows(s, s') && TaskFits(c, s, id)
    ensures TaskFits(c, s', id)
  {
    var t := s.world.db.tasks[id];
    assert SameIdentity(t, s'.world.db.tasks[id]);
    var f, f' := s.flows[t.instanceId], s'.flows[t.instanceId];
    OpenedStays(OriginOf(c, f), f.history, f'.history, |f.history| + 1, |f'.history| + 1, t.nodeId);
  }

  lemma EndStays(c: Setting, s: System, s': System, id: string)
    requires Grows(s, s') && EndFits(c, s, id)
    requires s'.world.db.instances[id].status == s.world.db.instances[id].status
    requires s'.world.db.instances[id].result == s.world.db.instances[id].result
    ensures EndFits(c, s', id)
  {
    var status := s.world.db.instances[id].status;
    if status !in {Running, InstanceStatus.Cancelled} {
      AskedToFinishStays(OriginOf(c, s.flows[id]), s.flows[id].history, s'.flows[id].history, status,
                         s.world.db.instances[id].result);
    }
  }

  lemma UpstreamStays(s: System, s': System, q: nat)
    requires Grows(s, s') && UpstreamFits(s, q)
    ensures UpstreamFits(s', q)
  {
    var a := s.attempts[s.upstream[q]];
    assert s'.upstream[q] == s.upstream[q] && SameAttempt(a, s'.attempts[s.upstream[q]]);
    if a.call.Compensate? {
      var p :| 0 <= p < q && s.upstream[p] < |s.attempts|
               && s.attempts[s.upstream[p]].id == a.id && s.attempts[s.upstream[p]].call == Invoke(a.call.node);
      assert s'.upstream[p] == s.upstream[p] && SameAttempt(s.attempts[s.upstream[p]], s'.attempts[s.upstream[p]]);
    }
  }

  /** The database part of what stays, for steps that leave it alone. */
  lemma EvolvesSelf(db: T.Database)
    ensures Evolves(db, db)
  {
  }

  // ---------- one kind of step after the other ----------

  lemma FlowsStay(c: Setting, s: System, s': System)
    requires Grows(s, s') && s'.flows == s.flows && FlowsFit(c, s) && MailsFit(c, s) && RepliesFit(c, s)
    ensures FlowsFit(c, s') && MailsFit(c, s') && RepliesFit(c, s')
  {
    forall id | id in s'.flows ensures FlowFits(c, s', id) {
      assert FlowFits(c, s, id);
      FlowStays(c, s, s', id);
    }
    forall id, signal | id in s'.flows && signal in s'.flows[id].mailbox ensures MailFits(c, s', id, signal) {
      assert MailFits(c, s, id, signal);
      MailStays(c, s, s', id, signal);
    }
    forall id, k: nat | id in s'.flows && k < |s'.flows[id].history| ensures ReplyFits(c, s', id, k) {
      assert ReplyFits(c, s, id, k);
      ReplyStays(c, s, s', id, k);
    }
  }

  lemma UpstreamsStay(s: System, s': System)
    requires Grows(s, s') && UpstreamsFit(s) && s'.upstream == s.upstream
    ensures UpstreamsFit(s')
  {
    forall q: nat | q < |s'.upstream| ensures UpstreamFits(s', q) {
      assert UpstreamFits(s, q);
      UpstreamStays(s, s', q);
    }
  }

  /** Steps that change no table keep what holds of tasks and endings. */
  lemma RowsStay(c: Setting, s: System, s': System)
    requires Grows(s, s') && s'.world == s.world && TasksFit(c, s) && EndsFit(c, s)
    ensures TasksFit(c, s') && EndsFit(c, s')
  {
    forall id | id in s'.world.db.tasks ensures TaskFits(c, s', id) {
      assert TaskFits(c, s, id);
      TaskStays(c, s, s', id);
    }
    forall id | id in s'.world.db.instances ensures EndFits(c, s', id) {
      assert EndFits(c, s, id);
      EndStays(c, s, s', id);
    }
  }

  /** All attempts but `k` are as they were, and `k` fits. */
  lemma AttemptsStay(c: Setting, s: System, s': System, k: nat)
    requires Grows(s, s') && AttemptsFit(c, s) && |s'.attempts| == |s.attempts|
             && (k < |s'.attempts| ==> AttemptFits(c, s', k))
    requires forall j | 0 <= j < |s.attempts| && j != k :: s'.attempts[j] == s.attempts[j]
    ensures AttemptsFit(c, s')
  {
    forall j: nat | j < |s'.attempts| ensures AttemptFits(c, s', j) {
      if j != k {
        assert AttemptFits(c, s, j);
        AttemptStays(c, s, s', j);
      }
    }
  }

  /** What the action of a transaction is allowed to be by the runs. */
  ghost predicate WasAsked(c: Setting, s: System, a: S.Action) {
    match a
    case NewTask(t) =>
      && t.instanceId in s.flows && IsAssigned(s.world.db, t)
      && var f := s.flows[t.instanceId]; Opened(OriginOf(c, f), f.history, |f.history| + 1, t.nodeId)
    case Conclude(_, _, id, status, result, _, _) =>
      id in s.flows && AskedToFinish(OriginOf(c, s.flows[id]), s.flows[id].history, status, result)
    case _ => true
  }

  lemma TasksAfter(c: Setting, s: System, s': System, a: S.Action, commits: bool)
    requires Grows(s, s') && s'.flows == s.flows && s'.world == S.Next(s.world, a, commits)
    requires TasksOk(s.world) && TasksFit(c, s) && WasAsked(c, s, a)
    ensures TasksFit(c, s')
  {
    NewRows(s.world.db, a, commits);
    forall id | id in s'.world.db.tasks ensures TaskFits(c, s', id) {
      if id in s.world.db.tasks {
        assert TaskFits(c, s, id);
        TaskStays(c, s, s', id);
      }
    }
    forall t | t in s'.world.seenTasks && t.version == 1 ensures IsAssigned(s'.world.db, t) {
      FirstVersions(s.world, a, commits, t);
      AssignedStays(s.world.db, s'.world.db, t);
    }
  }

  /** Only the creation of a task stores a first version. */
  lemma FirstVersions(w: S.World, a: S.Action, commits: bool, t: T.Task)
    requires TasksOk(w) && t in S.Next(w, a, commits).seenTasks && t.version == 1
    ensures t in w.seenTasks || (a.NewTask? && t == a.task.(version := 1))
  {
    if (a.Claim? || a.Complete? || a.Delegate?) && a.task.id in w.db.tasks {
      assert TaskOk(w.db, w.db.tasks[a.task.id]);
    }
  }

  lemma AssignedStays(db: T.Database, later: T.Database, t: T.Task)
    requires Evolves(db, later) && IsAssigned(db, t)
    ensures IsAssigned(later, t)
  {
    var i := db.instances[t.instanceId];
    assert SameLaunch(i, later.instances[t.instanceId]);
    var node :| node in db.revisions[(i.definitionId, i.definitionRevision)].nodes && IsTaskFor(i, node, t);
    assert IsTaskFor(later.instances[t.instanceId], node, t);
  }

  lemma EndsAfter(c: Setting, env: S.Env, s: System, s': System, a: S.Action, commits: bool)
    requires Grows(s, s') && s'.flows == s.flows && s'.world.db == S.Run(s.world.db, a, commits)
             && S.Admissible(env, s.world, a)
    requires EndsFit(c, s) && WasAsked(c, s, a)
    ensures EndsFit(c, s')
  {
    forall id | id in s'.world.db.instances ensures EndFits(c, s', id) {
      NewEnding(env, s.world, a, commits, id);
      assert SameOrEnded(s.world.db, s'.world.db, a, id);
      if id in s.world.db.instances && s'.world.db.instances[id].status == s.world.db.instances[id].status
         && s'.world.db.instances[id].result == s.world.db.instances[id].result
      {
        assert EndFits(c, s, id);
        EndStays(c, s, s', id);
      }
    }
  }

  /** A transaction of a user or of an activity, with or without progress of one attempt. */
  lemma TransactionKeeps(c: Setting, env: S.Env, s: System, s': System, a: S.Action, commits: bool)
    requires SystemOk(c, s) && env.isJson == c.isJson && S.Admissible(env, s.world, a) && WasAsked(c, s, a)
    requires s' == s.(world := S.Next(s.world, a, commits), attempts := s'.attempts)
    requires |s'.attempts| == |s.attempts| && forall k | 0 <= k < |s.attempts| ::
             SameAttempt(s.attempts[k], s'.attempts[k])
    ensures Inv(c.isJson, s'.world) && Grows(s, s')
    ensures FlowsFit(c, s') && MailsFit(c, s') && RepliesFit(c, s') && TasksFit(c, s') && EndsFit(c, s')
            && UpstreamsFit(s')
  {
    WorldAdvances(env, s.world, a, commits);
    FlowsStay(c, s, s');
    TasksAfter(c, s, s', a, commits);
    EndsAfter(c, env, s, s', a, commits);
    UpstreamsStay(s, s');
  }

  lemma UserKeeps(c: Setting, s: System, step: L.Step, s': System)
    requires SystemOk(c, s) && Uses(c, s, step, s')
    ensures SystemOk(c, s') && Grows(s, s')
  {
    TransactionKeeps(c, step.env, s, s', step.action, step.commits);
    AttemptsStay(c, s, s', |s.attempts|);
  }

  /** The transactions of activities are admissible, and the run asked for them. */
  lemma ActivityWasAsked(c: Setting, s: System, move: Move) returns (env: S.Env)
    requires SystemOk(c, s) && IsTransaction(move) && Ready(s, move)
    ensures env.isJson == c.isJson && S.Admissible(env, s.world, ActionOf(s, move)) && WasAsked(c, s, ActionOf(s, move))
    ensures OwnAction(s, move)
  {
    env := S.Env(c.isJson, (actor, role) => false, (actor, expression) => false);
    assert AttemptFits(c, s, move.attempt) && FlowFits(c, s, s.attempts[move.attempt].id);
    if move.Conclude? {
      FinishWasAsked(c, s, move, env);
    } else if move.CreateRow? {
      var a := s.attempts[move.attempt];
      TaskIsAssigned(c, s, a.id, a.position, a.call.node, move.newId);
      TaskWasAsked(c, s, move, env);
    }
  }

  /** The task that a run asks for is the one its pinned revision calls for. */
  lemma TaskIsAssigned(c: Setting, s: System, id: string, p: nat, node: Node, newId: string)
    requires IsSorter(c.sorter) && Inv(c.isJson, s.world) && FlowFits(c, s, id)
    requires Asked(OriginOf(c, s.flows[id]), s.flows[id].history, p, CreateTask(node))
    ensures var t := TaskFor(s.flows[id].input, node, newId);
            IsAssigned(s.world.db, t) && (t.assigneeType in {AssigneeType.User, Starter} ==> t.assignee != "")
  {
    var input, i := s.flows[id].input, s.world.db.instances[id];
    var pin := (i.definitionId, i.definitionRevision);
    CreatedForInput(c.isJson, OriginOf(c, s.flows[id]), s.flows[id].history, p, node);
    L.PublishedIsValid(c.isJson, s.world, pin);
    NodeArrived(c.isJson, s.world.db.revisions[pin].nodes, node);
    assert InstanceOk(s.world.db, i) && V.ValidNode(c.isJson, node);
    BlankIs(node.assignee);
    assert IsTaskFor(i, node, TaskFor(input, node, newId));
  }

  /** An approval arrives at the run as it was published. */
  lemma NodeArrived(isJson: string -> bool, nodes: seq<Node>, node: Node)
    requires (forall n {:trigger V.ValidNode(isJson, n)} | n in nodes :: V.ValidNode(isJson, n))
    requires node in CarryAll(nodes) && node.kind == Approval
    ensures node in nodes
  {
    var k :| 0 <= k < |CarryAll(nodes)| && CarryAll(nodes)[k] == node;
    assert nodes[k] in nodes && V.ValidNode(isJson, nodes[k]);
    ValidNodeArrives(isJson, nodes[k]);
  }

  lemma FinishWasAsked(c: Setting, s: System, move: Move, env: S.Env)
    requires move.Conclude? && Ready(s, move) && AttemptFits(c, s, move.attempt)
    requires s.flows[s.attempts[move.attempt].id].input.instanceId == s.attempts[move.attempt].id
    ensures S.Admissible(env, s.world, ActionOf(s, move)) && WasAsked(c, s, ActionOf(s, move)) && OwnAction(s, move)
  {
    var a := s.attempts[move.attempt];
    FinishStatuses(OriginOf(c, s.flows[a.id]), s.flows[a.id].history, a.position, a.call);
  }

  lemma TaskWasAsked(c: Setting, s: System, move: Move, env: S.Env)
    requires move.CreateRow? && Ready(s, move) && AttemptFits(c, s, move.attempt)
    requires var t := ActionOf(s, move).task;
             IsAssigned(s.world.db, t) && (t.assigneeType in {AssigneeType.User, Starter} ==> t.assignee != "")
    requires s.flows[s.attempts[move.attempt].id].input.instanceId == s.attempts[move.attempt].id
    ensures S.Admissible(env, s.world, ActionOf(s, move)) && WasAsked(c, s, ActionOf(s, move))
  {
    var a := s.attempts[move.attempt];
    assert Asked(OriginOf(c, s.flows[a.id]), s.flows[a.id].history, a.position, CreateTask(a.call.node));
  }

  /** The transaction is about the instance of its attempt, and a finish is one. */
  predicate OwnAction(s: System, move: Move)
    requires IsTransaction(move) && Ready(s, move)
  {
    && s.flows[s.attempts[move.attempt].id].input.instanceId == s.attempts[move.attempt].id
    && (move.Conclude? ==> s.attempts[move.attempt].call.status != Running)
  }

  lemma ActivityKeeps(c: Setting, s: System, move: Move, s': System)
    requires SystemOk(c, s) && IsTransaction(move) && Acts(s, move, s')
    ensures SystemOk(c, s') && Grows(s, s')
  {
    var env := ActivityWasAsked(c, s, move);
    ActivityShape(s, move, s');
    EffectKeeps(c, env, s, s', ActionOf(s, move), move.commits, move.attempt);
    ProgressFits(c, s, move, s');
    AttemptsStay(c, s, s', move.attempt);
  }

  lemma ActivityShape(s: System, move: Move, s': System)
    requires IsTransaction(move) && Acts(s, move, s')
    ensures s' == s.(world := S.Next(s.world, ActionOf(s, move), move.commits), attempts := s'.attempts)
    ensures OneProgressed(s, s', move.attempt)
  {
  }

  /** Only attempt `k` has progressed. */
  predicate OneProgressed(s: System, s': System, k: nat) {
    && k < |s.attempts| == |s'.attempts| && SameAttempt(s.attempts[k], s'.attempts[k])
    && forall j | 0 <= j < |s.attempts| && j != k :: s'.attempts[j] == s.attempts[j]
  }

  lemma EffectKeeps(c: Setting, env: S.Env, s: System, s': System, a: S.Action, commits: bool, k: nat)
    requires SystemOk(c, s) && env.isJson == c.isJson && S.Admissible(env, s.world, a) && WasAsked(c, s, a)
    requires s' == s.(world := S.Next(s.world, a, commits), attempts := s'.attempts) && OneProgressed(s, s', k)
    ensures Inv(c.isJson, s'.world) && Grows(s, s')
    ensures FlowsFit(c, s') && MailsFit(c, s') && RepliesFit(c, s') && TasksFit(c, s') && EndsFit(c, s')
            && UpstreamsFit(s')
  {
    TransactionKeeps(c, env, s, s', a, commits);
  }

  lemma ProgressFits(c: Setting, s: System, move: Move, s': System)
    requires AttemptsFit(c, s) && Grows(s, s') && IsTransaction(move) && Acts(s, move, s') && OwnAction(s, move)
    ensures AttemptFits(c, s', move.attempt)
  {
    assert AttemptFits(c, s, move.attempt);
    if move.CreateRow? && s'.attempts[move.attempt].progress.Succeeded? {
      CreationHasRow(s.world.db, ActionOf(s, move), move.commits);
    }
    if move.Conclude? && s'.attempts[move.attempt].progress.Succeeded? {
      FinishSettles(s.world.db, ActionOf(s, move), move.commits);
    }
  }

  /** What only moves attempts along, or adds one, keeps the rest. */
  lemma AttemptStepKeeps(c: Setting, s: System, s': System)
    requires SystemOk(c, s) && s' == s.(attempts := s'.attempts) && |s.attempts| <= |s'.attempts|
    requires forall k | 0 <= k < |s.attempts| :: SameAttempt(s.attempts[k], s'.attempts[k])
    ensures Inv(c.isJson, s'.world) && Grows(s, s')
    ensures FlowsFit(c, s') && MailsFit(c, s') && RepliesFit(c, s') && TasksFit(c, s') && EndsFit(c, s')
            && UpstreamsFit(s')
  {
    EvolvesSelf(s.world.db);
    FlowsStay(c, s, s');
    RowsStay(c, s, s');
    UpstreamsStay(s, s');
  }

  lemma BeginKeeps(c: Setting, s: System, id: string, s': System)
    requires SystemOk(c, s) && Begins(c, s, id, s')
    ensures SystemOk(c, s') && Grows(s, s')
  {
    AttemptStepKeeps(c, s, s');
    var f := s.flows[id];
    assert f.history[..|f.history|] == f.history;
    forall k: nat | k < |s'.attempts| ensures AttemptFits(c, s', k) {
      if k < |s.attempts| {
        assert AttemptFits(c, s, k);
        AttemptStays(c, s, s', k);
      }
    }
  }

  lemma JudgeKeeps(c: Setting, s: System, k: nat, answer: Option<bool>, s': System)
    requires SystemOk(c, s) && Judges(s, k, answer, s')
    ensures SystemOk(c, s') && Grows(s, s')
  {
    AttemptStepKeeps(c, s, s');
    assert AttemptFits(c, s, k);
    AttemptsStay(c, s, s', k);
  }

  /** A compensation that is asked for follows a forward call. */
  lemma CompensationFollows(c: Setting, s: System, k: nat) returns (q: nat)
    requires SystemOk(c, s) && k < |s.attempts| && s.attempts[k].call.Compensate?
    ensures q < |s.upstream| && s.upstream[q] < |s.attempts|
    ensures s.attempts[s.upstream[q]].id == s.attempts[k].id
            && s.attempts[s.upstream[q]].call == Invoke(s.attempts[k].call.node)
  {
    var a := s.attempts[k];
    assert AttemptFits(c, s, k);
    var f := s.flows[a.id];
    var j, json := CompensatedWasDone(OriginOf(c, f), f.history, a.position, a.call.node);
    assert ReplyFits(c, s, a.id, j);
    q :| 0 <= q < |s.upstream| && s.upstream[q] < |s.attempts|
         && s.attempts[s.upstream[q]].id == a.id && s.attempts[s.upstream[q]].position == j
         && s.attempts[s.upstream[q]].call == Invoke(a.call.node);
  }

  lemma CallKeeps(c: Setting, s: System, k: nat, response: Option<string>, s': System)
    requires SystemOk(c, s) && Calls(s, k, response, s')
    ensures SystemOk(c, s') && Grows(s, s')
  {
    EvolvesSelf(s.world.db);
    FlowsStay(c, s, s');
    RowsStay(c, s, s');
    CallKeepsAttempts(c, s, k, response, s');
    CallKeepsUpstream(c, s, k, response, s');
  }

  lemma CallKeepsAttempts(c: Setting, s: System, k: nat, response: Option<string>, s': System)
    requires AttemptsFit(c, s) && Calls(s, k, response, s') && Grows(s, s')
    ensures AttemptsFit(c, s')
  {
    assert AttemptFits(c, s, k);
    assert s'.upstream[|s.upstream|] == k;
    AttemptsStay(c, s, s', k);
  }

  lemma CallKeepsUpstream(c: Setting, s: System, k: nat, response: Option<string>, s': System)
    requires SystemOk(c, s) && Calls(s, k, response, s') && Grows(s, s')
    ensures UpstreamsFit(s')
  {
    if s.attempts[k].call.Compensate? {
      var p := CompensationFollows(c, s, k);
      assert s'.upstream[p] == s.upstream[p] && SameAttempt(s.attempts[s.upstream[p]], s'.attempts[s.upstream[p]]);
    }
    forall q: nat | q < |s'.upstream| ensures UpstreamFits(s', q) {
      if q < |s.upstream| {
        assert UpstreamFits(s, q);
        UpstreamStays(s, s', q);
      }
    }
  }

  // ---------- deliveries ----------

  /** A start event starts the run of a valid graph, with the identity of its instance. */
  lemma StartFits(c: Setting, s: System, e: T.Event)
    requires Inv(c.isJson, s.world) && e in s.world.db.outbox && e.StartRequested?
    ensures var start := DecodeStart(EncodeStart(e.started, e.definition));
            start.Ok? && Executes(s.world.db, e.started.id, start.value) && ValidInput(c.isJson, start.value)
  {
    var i, d := e.started, e.definition;
    assert Faithful(s.world.db, e) && InstanceOk(s.world.db, s.world.db.instances[i.id]);
    L.PublishedIsValid(c.isJson, s.world, (i.definitionId, i.definitionRevision));
    StartArrives(c.isJson, i, d);
    StillValid(c.isJson, d.key, d.name, d.nodes, d.edges);
  }

  /** A completion event carries the decision of the stored row. */
  lemma SignalFits(c: Setting, s: System, e: T.Event)
    requires SystemOk(c, s) && e in s.world.db.outbox && e.TaskCompleted?
    ensures var signal := DecodeSignal(EncodeTask(e.completed)); signal.Ok? ==>
            MailFits(c, s, e.completed.instanceId, signal.value)
  {
    var t := e.completed;
    assert Faithful(s.world.db, e) && TaskOk(s.world.db, s.world.db.tasks[t.id]);
    assert TaskFits(c, s, t.id);
  }

  /** Only the flows change, and each old flow keeps its input and history. */
  ghost predicate OnlyFlows(s: System, s': System) {
    && s' == s.(flows := s'.flows)
    && forall id {:trigger s'.flows[id]} | id in s.flows ::
         && id in s'.flows && s'.flows[id].input == s.flows[id].input && s.flows[id].history <= s'.flows[id].history
         && (s.flows[id].cancelRequested ==> s'.flows[id].cancelRequested)
  }

  lemma DeliveryKeepsRest(c: Setting, s: System, s': System)
    requires SystemOk(c, s) && OnlyFlows(s, s')
    ensures Inv(c.isJson, s'.world) && Grows(s, s') && AttemptsFit(c, s') && TasksFit(c, s') && EndsFit(c, s')
            && UpstreamsFit(s')
  {
    EvolvesSelf(s.world.db);
    RowsStay(c, s, s');
    UpstreamsStay(s, s');
    AttemptsStay(c, s, s', |s.attempts|);
  }

  lemma DeliveryKeepsFlows(c: Setting, s: System, s': System, id: string)
    requires FlowsFit(c, s) && MailsFit(c, s) && RepliesFit(c, s) && Grows(s, s')
             && (id in s'.flows ==> FlowFits(c, s', id))
    requires forall j | j in s'.flows && j != id :: j in s.flows && s'.flows[j] == s.flows[j]
    requires id in s'.flows ==> s'.flows[id].history == if id in s.flows then s.flows[id].history else []
    requires forall signal | id in s'.flows && signal in s'.flows[id].mailbox :: MailFits(c, s', id, signal)
    ensures FlowsFit(c, s') && MailsFit(c, s') && RepliesFit(c, s')
  {
    forall j | j in s'.flows ensures FlowFits(c, s', j) {
      if j != id {
        assert FlowFits(c, s, j);
        FlowStays(c, s, s', j);
      }
    }
    forall j, signal | j in s'.flows && signal in s'.flows[j].mailbox ensures MailFits(c, s', j, signal) {
      if j != id {
        assert MailFits(c, s, j, signal);
        MailStays(c, s, s', j, signal);
      }
    }
    forall j, k: nat | j in s'.flows && k < |s'.flows[j].history| ensures ReplyFits(c, s', j, k) {
      assert ReplyFits(c, s, j, k);
      ReplyStays(c, s, s', j, k);
    }
  }

  lemma StartKeeps(c: Setting, s: System, e: T.Event, s': System)
    requires SystemOk(c, s) && e in s.world.db.outbox && e.StartRequested? && e.started.id !in s.flows
             && s' == Receive(s, e)
    ensures SystemOk(c, s') && Grows(s, s')
  {
    StartFits(c, s, e);
    RunAdded(c, s, s', e.started.id, DecodeStart(EncodeStart(e.started, e.definition)).value);
  }

  lemma RunAdded(c: Setting, s: System, s': System, id: string, input: Input)
    requires SystemOk(c, s) && id !in s.flows && Executes(s.world.db, id, input) && ValidInput(c.isJson, input)
    requires s' == s.(flows := s.flows[id := Flow(input, [], [], false)])
    ensures SystemOk(c, s') && Grows(s, s')
  {
    DeliveryKeepsRest(c, s, s');
    DeliveryKeepsFlows(c, s, s', id);
  }

  lemma OldMail(c: Setting, s: System, s': System, id: string)
    requires MailsFit(c, s) && Grows(s, s') && id in s.flows
    ensures forall signal | signal in s.flows[id].mailbox :: MailFits(c, s', id, signal)
  {
    forall signal | signal in s.flows[id].mailbox ensures MailFits(c, s', id, signal) {
      assert MailFits(c, s, id, signal);
      MailStays(c, s, s', id, signal);
    }
  }

  lemma CancellationKeeps(c: Setting, s: System, e: T.Event, s': System)
    requires SystemOk(c, s) && e in s.world.db.outbox && e.CancellationRequested? && e.cancelled.id in s.flows
             && s' == Receive(s, e)
    ensures SystemOk(c, s') && Grows(s, s')
  {
    assert Faithful(s.world.db, e);
    DeliveryKeepsRest(c, s, s');
    CancelMarked(c, s, s', e.cancelled.id);
  }

  lemma CancelMarked(c: Setting, s: System, s': System, id: string)
    requires FlowsFit(c, s) && MailsFit(c, s) && RepliesFit(c, s) && Grows(s, s') && id in s.flows
             && IsCancelled(s.world.db, id)
    requires s' == s.(flows := s.flows[id := s.flows[id].(cancelRequested := true)])
    ensures FlowsFit(c, s') && MailsFit(c, s') && RepliesFit(c, s')
  {
    assert FlowFits(c, s, id);
    OldMail(c, s, s', id);
    DeliveryKeepsFlows(c, s, s', id);
  }

  lemma SignalKeeps(c: Setting, s: System, e: T.Event, s': System)
    requires SystemOk(c, s) && e in s.world.db.outbox && e.TaskCompleted? && s' == Receive(s, e) && s' != s
    ensures SystemOk(c, s') && Grows(s, s')
  {
    SignalFits(c, s, e);
    MailAdded(c, s, s', e.completed.instanceId, DecodeSignal(EncodeTask(e.completed)).value);
  }

  lemma MailAdded(c: Setting, s: System, s': System, id: string, signal: Signal)
    requires SystemOk(c, s) && MailFits(c, s, id, signal)
    requires s' == s.(flows := s.flows[id := s.flows[id].(mailbox := s.flows[id].mailbox + [signal])])
    ensures SystemOk(c, s') && Grows(s, s')
  {
    DeliveryKeepsRest(c, s, s');
    MailAddedKeepsFlows(c, s, s', id, signal);
  }

  lemma MailAddedKeepsFlows(c: Setting, s: System, s': System, id: string, signal: Signal)
    requires FlowsFit(c, s) && MailsFit(c, s) && RepliesFit(c, s) && MailFits(c, s, id, signal) && Grows(s, s')
    requires s' == s.(flows := s.flows[id := s.flows[id].(mailbox := s.flows[id].mailbox + [signal])])
    ensures FlowsFit(c, s') && MailsFit(c, s') && RepliesFit(c, s')
  {
    NewMailFits(c, s, s', id, signal);
    DeliveryKeepsFlows(c, s, s', id);
  }

  lemma NewMailFits(c: Setting, s: System, s': System, id: string, signal: Signal)
    requires FlowsFit(c, s) && MailsFit(c, s) && MailFits(c, s, id, signal) && Grows(s, s')
    requires s'.flows[id] == s.flows[id].(mailbox := s.flows[id].mailbox + [signal])
    ensures FlowFits(c, s', id) && forall x | x in s'.flows[id].mailbox :: MailFits(c, s', id, x)
  {
    assert FlowFits(c, s, id);
    FlowStays(c, s, s', id);
    MailsStay(c, s, s', id, signal);
  }

  lemma MailsStay(c: Setting, s: System, s': System, id: string, signal: Signal)
    requires MailsFit(c, s) && MailFits(c, s, id, signal) && Grows(s, s')
    ensures forall x | x in s.flows[id].mailbox + [signal] :: MailFits(c, s', id, x)
  {
    OldMail(c, s, s', id);
    MailStays(c, s, s', id, signal);
  }

  lemma DeliverKeeps(c: Setting, s: System, e: T.Event, s': System)
    requires SystemOk(c, s) && e in s.world.db.outbox && s' == Receive(s, e)
    ensures SystemOk(c, s') && Grows(s, s')
  {
    if e.StartRequested? && e.started.id !in s.flows {
      StartKeeps(c, s, e, s');
    } else if e.CancellationRequested? && e.cancelled.id in s.flows {
      CancellationKeeps(c, s, e, s');
    } else if e.TaskCompleted? && s' != s {
      SignalKeeps(c, s, e, s');
    } else {
      DeliveryKeepsRest(c, s, s');
      FlowsStay(c, s, s');
    }
  }

  // ---------- replies ----------

  lemma AttemptFor(c: Setting, s: System, id: string, call: Call, reply: Reply) returns (k: nat)
    requires AttemptsFit(c, s) && id in s.flows && IsActivity(call) && Replies(s, id, call, reply) && reply != Denied
    ensures k < |s.attempts| && s.attempts[k] == Attempt(id, |s.flows[id].history|, call, Succeeded(reply))
            && AttemptFits(c, s, k)
  {
    k :| 0 <= k < |s.attempts| && s.attempts[k] == Attempt(id, |s.flows[id].history|, call, Succeeded(reply));
  }

  /** What a reply reports is true when it is given. */
  lemma NewReplyFits(c: Setting, s: System, s': System, id: string, reply: Reply)
    requires SystemOk(c, s) && Grows(s, s') && id in s.flows && Present(c, s.flows[id]).stage.Asking?
    requires Replies(s, id, Present(c, s.flows[id]).stage.call, reply)
    requires s' == s.(flows := s.flows[id := TakeReply(s.flows[id], reply)])
    ensures ReplyFits(c, s', id, |s.flows[id].history|)
  {
    var f, f' := s.flows[id], s'.flows[id];
    assert f.history[..|f.history|] == f.history && f'.history[..|f.history|] == f.history;
    NewReplyIsTrue(c, s, s', id, reply, Present(c, f).stage.call);
  }

  lemma NewReplyIsTrue(c: Setting, s: System, s': System, id: string, reply: Reply, call: Call)
    requires SystemOk(c, s) && Grows(s, s') && id in s.flows && Present(c, s.flows[id]).stage.Asking?
    requires call == Present(c, s.flows[id]).stage.call && Replies(s, id, call, reply)
    requires s' == s.(flows := s.flows[id := TakeReply(s.flows[id], reply)])
    ensures IsTrueReply(c, s', id, |s.flows[id].history|, call)
  {
    assert FlowFits(c, s, id);
    match call
    case AwaitDecision(_) =>
      if reply.Received? {
        NewSignalFits(c, s, s', id, reply.signal);
      }
    case CreateTask(node) =>
      if reply == Done {
        SuccessIsTrue(c, s, id, call);
        RowStays(s.world.db, s'.world.db, id, node.id);
      }
    case Finish(status, _, _) =>
      if reply == Done {
        SuccessIsTrue(c, s, id, call);
        SettledStays(s.world.db, s'.world.db, id, status);
      }
    case Invoke(_) =>
      if reply.Output? {
        SuccessWasServed(c, s, id, call, reply);
        ServedStays(s, s', id, |s.flows[id].history|, call);
      }
    case _ =>
  }

  lemma SuccessIsTrue(c: Setting, s: System, id: string, call: Call)
    requires AttemptsFit(c, s) && id in s.flows && (call.CreateTask? || call.Finish?) && Replies(s, id, call, Done)
    ensures if call.CreateTask? then HasRow(s.world.db, id, call.node.id) else Settled(s.world.db, id, call.status)
  {
    var k := AttemptFor(c, s, id, call, Done);
  }

  lemma NewSignalFits(c: Setting, s: System, s': System, id: string, signal: Signal)
    requires MailsFit(c, s) && Grows(s, s') && id in s.flows && signal in s.flows[id].mailbox
    requires Present(c, s.flows[id]).stage.Asking? && Present(c, s.flows[id]).stage.call.AwaitDecision?
    requires s'.flows[id] == TakeReply(s.flows[id], Received(signal))
    ensures Genuine(s'.world.db, id, signal)
    ensures Opened(OriginOf(c, s'.flows[id]), s'.flows[id].history, |s.flows[id].history|, signal.nodeId)
  {
    var f := s.flows[id];
    assert f.history[..|f.history|] == f.history;
    assert MailFits(c, s, id, signal);
    GenuineStays(s.world.db, s'.world.db, id, signal);
    WaitsForOpened(OriginOf(c, f), f.history, Received(signal), Present(c, f).stage.call, signal.nodeId);
  }

  lemma SuccessWasServed(c: Setting, s: System, id: string, call: Call, reply: Reply)
    requires AttemptsFit(c, s) && id in s.flows && call.Invoke? && Replies(s, id, call, reply) && reply != Denied
    ensures Served(s, id, |s.flows[id].history|, call)
  {
    var k := AttemptFor(c, s, id, call, reply);
    var q :| 0 <= q < |s.upstream| && s.upstream[q] == k;
    assert s.attempts[s.upstream[q]] == Attempt(id, |s.flows[id].history|, call, Succeeded(reply));
  }

  /** While a run waits for a decision, every task it has asked for was asked for earlier. */
  lemma WaitsForOpened(o: Origin, history: seq<Reply>, reply: Reply, call: Call, nodeId: string)
    requires Asked(o, history, |history|, call) && call.AwaitDecision? && Opened(o, history, |history| + 1, nodeId)
    ensures Opened(o, history + [reply], |history|, nodeId)
  {
    var p: nat, n: Node :| p < |history| + 1 && Asked(o, history, p, CreateTask(n)) && n.id == nodeId;
    AskedStays(o, history, history + [reply], p, CreateTask(n));
  }

  /** One run takes a reply: histories only grow, by one, and mail is only taken out. */
  lemma AnswerKeepsFlows(c: Setting, s: System, s': System)
    requires FlowsFit(c, s) && MailsFit(c, s) && OnlyFlows(s, s') && Grows(s, s') && s'.flows.Keys == s.flows.Keys
    requires forall id | id in s.flows :: s'.flows[id].cancelRequested == s.flows[id].cancelRequested
    requires forall id, signal | id in s.flows && signal in s'.flows[id].mailbox :: signal in s.flows[id].mailbox
    ensures FlowsFit(c, s') && MailsFit(c, s')
  {
    forall id | id in s'.flows ensures FlowFits(c, s', id) {
      assert FlowFits(c, s, id);
      FlowStays(c, s, s', id);
    }
    forall id, signal | id in s'.flows && signal in s'.flows[id].mailbox ensures MailFits(c, s', id, signal) {
      assert MailFits(c, s, id, signal);
      MailStays(c, s, s', id, signal);
    }
  }

  lemma AnswerKeepsReplies(c: Setting, s: System, s': System, answered: string)
    requires RepliesFit(c, s) && Grows(s, s') && s'.flows.Keys == s.flows.Keys && answered in s.flows
    requires ReplyFits(c, s', answered, |s.flows[answered].history|)
    requires |s'.flows[answered].history| == |s.flows[answered].history| + 1
    requires forall id | id in s.flows && id != answered :: s'.flows[id] == s.flows[id]
    ensures RepliesFit(c, s')
  {
    forall id, k: nat | id in s'.flows && k < |s'.flows[id].history| ensures ReplyFits(c, s', id, k) {
      if k < |s.flows[id].history| {
        assert ReplyFits(c, s, id, k);
        ReplyStays(c, s, s', id, k);
      } else {
        assert id == answered;
      }
    }
  }

  lemma AnswerKeeps(c: Setting, s: System, s': System, answered: string, reply: Reply)
    requires SystemOk(c, s) && answered in s.flows && Present(c, s.flows[answered]).stage.Asking?
    requires Replies(s, answered, Present(c, s.flows[answered]).stage.call, reply)
    requires s' == s.(flows := s.flows[answered := TakeReply(s.flows[answered], reply)])
    ensures SystemOk(c, s') && Grows(s, s')
  {
    DeliveryKeepsRest(c, s, s');
    AnswerKeepsFlows(c, s, s');
    NewReplyFits(c, s, s', answered, reply);
    AnswerKeepsReplies(c, s, s', answered);
  }

  /** The invariant is kept by every step, and no step takes anything back. */
  lemma StepKeeps(c: Setting, s: System, move: Move, s': System)
    requires SystemOk(c, s) && Moves(c, s, move, s')
    ensures SystemOk(c, s') && Grows(s, s')
  {
    match move
    case User(step) => UserKeeps(c, s, step, s');
    case Deliver(event) => DeliverKeeps(c, s, s.world.db.outbox[event], s');
    case Begin(id) => BeginKeeps(c, s, id, s');
    case CallUpstream(k, response) => CallKeeps(c, s, k, response, s');
    case Judge(k, answer) => JudgeKeeps(c, s, k, answer, s');
    case Answer(id, reply) => AnswerKeeps(c, s, s', id, reply);
    case CreateRow(_, _, _, _) => ActivityKeeps(c, s, move, s');
    case Guard(_, _, _) => ActivityKeeps(c, s, move, s');
    case Conclude(_, _, _, _, _) => ActivityKeeps(c, s, move, s');
  }
}
