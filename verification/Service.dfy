/**
 The service over the tables (`internal/workflow/service.go`).  An operation first reads a row, decides on what it
 read, and then runs one transaction.  Between the two anything may be committed, so the row it read is some row
 that was stored at some time.
 */
module Service {
  import opened Text
  import opened Model
  import opened Validation
  import opened Tables

  /** The database with what was ever stored: definition and task rows, and history rows in order of insertion. */
  datatype World = World(db: Database, seenDefinitions: set<Definition>, seenTasks: set<Task>, journal: seq<HistoryRow>)

  /**
   A committed or failed transaction with its parameters; `read` is the row the service had read before.  Texts of the
   caller are as the caller sent them.
   */
  datatype Action =
    | Create(value: Definition)
    | Update(name: string, description: string, nodes: seq<Node>, edges: seq<Edge>, expected: nat, read: Definition)
    | Publish(expected: nat, read: Definition)
    | Disable(tenantId: string, applicationId: string, id: string, expected: nat)
    | Launch(instance: Instance, read: Definition)
    | Cancel(tenantId: string, applicationId: string, id: string, expected: nat, reason: string, now: int)
    | NewTask(task: Task)
    | MoveTo(tenantId: string, applicationId: string, id: string, nodeId: string)
    | Conclude(tenantId: string, applicationId: string, id: string, status: InstanceStatus, result: string,
               message: string, now: int)
    | Claim(task: Task, actor: string, historyId: string, now: int)
    | Complete(task: Task, decision: Decision, comment: string, output: string, actor: string, historyId: string,
               now: int)
    | Delegate(task: Task, to: string, reason: string, actor: string, historyId: string, now: int)
    | Purge(ids: set<string>, before: int)

  /** Everything outside the model that operations depend on: JSON decoding and what the authorization service says. */
  datatype Env = Env(isJson: string -> bool, holdsRole: (string, string) -> bool, mayPerform: (string, string) -> bool)

  /** `authorizedTask` for an actor and the task row it read. */
  predicate Authorized(env: Env, actor: string, task: Task) {
    && (task.claimedBy == "" || task.claimedBy == actor)
    && match task.assigneeType
       case User => task.assignee == actor
       case Starter => task.assignee == actor
       case Role => env.holdsRole(actor, task.assignee)
       case Expression => env.mayPerform(actor, task.assignee)
       case OtherAssignee(_) => false
  }

  ghost predicate ValidRow(isJson: string -> bool, d: Definition) {
    ValidDefinition(isJson, d.key, d.name, d.nodes, d.edges)
  }

  /** What the service checks before it runs the transaction. */
  ghost predicate Admissible(env: Env, w: World, a: Action) {
    match a
    case Create(value) =>
      && value.status == Draft && value.publishedRevision == 0 && value.version == 1
      && exists name ::
           value.name == Trim(name) && ValidDefinition(env.isJson, value.key, name, value.nodes, value.edges)
    case Update(name, description, nodes, edges, expected, read) =>
      read in w.seenDefinitions && expected >= 1 && ValidDefinition(env.isJson, read.key, name, nodes, edges)
    case Publish(expected, read) => read in w.seenDefinitions && expected >= 1 && ValidRow(env.isJson, read)
    case Disable(_, _, _, expected) => expected >= 1
    case Launch(value, read) =>
      && read in w.seenDefinitions && read.status == Published
      && (read.id, read.publishedRevision) in w.db.revisions
      && OwnedBy(Pinned(w.db.revisions[(read.id, read.publishedRevision)]), read.tenantId, read.applicationId)
      && value.tenantId == read.tenantId && value.applicationId == read.applicationId
      && value.definitionId == read.id && value.definitionRevision == read.publishedRevision
      && value.status == Running && value.currentNodeId == "" && value.finishedAt.None? && value.version == 1
      && value.id != "" && value.tenantId != "" && value.applicationId != "" && value.starterId != ""
      && value.result == "{}" && value.errorMessage == ""
      && exists variables {:trigger ObjectText(variables)} ::
           value.variables == ObjectText(variables) && JsonObject(env.isJson, variables)
    case Cancel(_, _, _, expected, reason, _) => expected >= 1 && !IsBlank(reason)
    case NewTask(t) =>
      && t.status == Pending && t.claimedBy == "" && t.decision == UNDECIDED && t.completedAt.None? && t.version == 1
      && (t.assigneeType in {User, Starter} ==> t.assignee != "")
    case MoveTo(_, _, _, _) => true
    case Conclude(_, _, _, status, _, _, _) => status in {InstanceStatus.Completed, Rejected, Failed}
    case Claim(t, actor, _, _) => t in w.seenTasks && t.version >= 1 && actor != "" && Authorized(env, actor, t)
    case Complete(t, decision, _, output, actor, _, _) =>
      && t in w.seenTasks && t.version >= 1 && actor != "" && Authorized(env, actor, t)
      && decision in {Approve, Reject} && env.isJson(ObjectText(output))
    case Delegate(t, to, reason, actor, _, _) =>
      && t in w.seenTasks && t.version >= 1 && actor != "" && Authorized(env, actor, t)
      && !IsBlank(to) && !IsBlank(reason) && to != actor
    case Purge(ids, before) => forall id | id in ids :: Expired(w.db, before, id)
  }

  /** The database after the transaction of an action. */
  function Run(db: Database, a: Action, commits: bool): Database {
    match a
    case Create(value) => CreateDefinition(db, value, commits).db
    case Update(name, description, nodes, edges, expected, read) =>
      UpdateDefinition(db, read.(name := Trim(name), description := Trim(description), nodes := nodes, edges := edges),
                       expected, commits).db
    case Publish(expected, read) =>
      PublishDefinition(db, read.tenantId, read.applicationId, read.id, expected, commits).db
    case Disable(tenantId, applicationId, id, expected) =>
      DisableDefinition(db, tenantId, applicationId, id, expected, commits).db
    case Launch(value, read) =>
      if (read.id, read.publishedRevision) in db.revisions
      then CreateInstance(db, value, Pinned(db.revisions[(read.id, read.publishedRevision)]), commits).db
      else db
    case Cancel(tenantId, applicationId, id, expected, reason, now) =>
      CancelInstance(db, tenantId, applicationId, id, expected, Trim(reason), now, commits).db
    case NewTask(t) => CreateTask(db, t, commits).db
    case MoveTo(tenantId, applicationId, id, nodeId) =>
      UpdateInstanceNode(db, tenantId, applicationId, id, nodeId, commits).db
    case Conclude(tenantId, applicationId, id, status, result, message, now) =>
      FinishInstance(db, tenantId, applicationId, id, status, result, message, now, commits).db
    case Claim(t, actor, historyId, now) =>
      ClaimTask(db, t.tenantId, t.applicationId, t.id, t.version, actor, historyId, now, commits).db
    case Complete(t, decision, comment, output, actor, historyId, now) =>
      CompleteTask(db, t, decision, Trim(comment), ObjectText(output), actor, historyId, now, commits).db
    case Delegate(t, to, reason, actor, historyId, now) =>
      DelegateTask(db, t, Trim(to), Trim(reason), actor, historyId, now, commits).db
    case Purge(ids, _) => if commits then PurgeHistory(db, ids) else db
  }

  /** The history row a successful action writes. */
  function Written(before: Database, after: Database, a: Action): seq<HistoryRow> {
    if (a.Claim? || a.Complete? || a.Delegate?) && a.historyId in after.history && a.historyId !in before.history
    then [after.history[a.historyId]] else []
  }

  function RowAt<Row(==)>(rows: map<string, Row>, id: string): set<Row> {
    if id in rows then {rows[id]} else {}
  }

  /** The definition row that an action is about, as stored after it. */
  function StoredDefinition(after: Database, a: Action): set<Definition> {
    match a
    case Create(value) => RowAt(after.definitions, value.id)
    case Update(_, _, _, _, _, read) => RowAt(after.definitions, read.id)
    case Publish(_, read) => RowAt(after.definitions, read.id)
    case Disable(_, _, id, _) => RowAt(after.definitions, id)
    case _ => {}
  }

  /** The task row that an action is about, as stored after it. */
  function StoredTask(after: Database, a: Action): set<Task> {
    match a
    case NewTask(task) => RowAt(after.tasks, task.id)
    case Claim(task, _, _, _) => RowAt(after.tasks, task.id)
    case Complete(task, _, _, _, _, _, _) => RowAt(after.tasks, task.id)
    case Delegate(task, _, _, _, _, _) => RowAt(after.tasks, task.id)
    case _ => {}
  }

  function Next(w: World, a: Action, commits: bool): World {
    var db := Run(w.db, a, commits);
    World(db, w.seenDefinitions + StoredDefinition(db, a), w.seenTasks + StoredTask(db, a),
          w.journal + Written(w.db, db, a))
  }

  function Initial(): World {
    World(Database(map[], map[], map[], map[], map[], []), {}, {}, [])
  }
}
