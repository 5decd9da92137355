/**
 The tables of the workflow database and the committed effect of each transaction of
 `internal/workflow/repository.go`.  A transaction either commits as a whole or leaves every table, and the
 outbox, as they were.  `commits` says whether the parts outside the tables (building the event, adding it to the
 outbox, the commit itself) succeed.
 */
module Tables {
  import opened Model

  datatype Definition = Definition(
    id: string, tenantId: string, applicationId: string, key: string, name: string, description: string,
    status: DefinitionStatus, publishedRevision: nat, nodes: seq<Node>, edges: seq<Edge>, version: nat)

  datatype Revision = Revision(
    definitionId: string, revision: nat, tenantId: string, applicationId: string, key: string, name: string,
    description: string, nodes: seq<Node>, edges: seq<Edge>)

  datatype Instance = Instance(
    id: string, tenantId: string, applicationId: string, definitionId: string, definitionRevision: nat,
    businessKey: string, idempotencyKey: string, title: string, starterId: string, status: InstanceStatus,
    currentNodeId: string, variables: string, result: string, errorMessage: string, finishedAt: Option<int>,
      version: nat)

  datatype Task = Task(
    id: string, tenantId: string, applicationId: string, instanceId: string, nodeId: string, name: string,
    assigneeType: AssigneeType, assignee: string, claimedBy: string, status: TaskStatus, decision: Decision,
    comment: string, input: string, output: string, completedAt: Option<int>, version: nat)

  datatype HistoryAction = ClaimAction | CompleteAction | DelegateAction

  datatype Detail = NoDetail | DecisionDetail(decision: Decision, comment: string)
    | DelegationDetail(to: string, reason: string)

  datatype HistoryRow = HistoryRow(
    id: string, tenantId: string, applicationId: string, taskId: string, instanceId: string, action: HistoryAction,
    actor: string, fromStatus: TaskStatus, toStatus: TaskStatus, detail: Detail, createdAt: int)

  datatype Event =
    | DefinitionPublished(published: Definition)
    | StartRequested(started: Instance, definition: Definition)
    | CancellationRequested(cancelled: Instance, reason: string)
    | StatusChanged(finished: Instance, previous: InstanceStatus)
    | TaskCreated(created: Task)
    | TaskCompleted(completed: Task)

  datatype Database = Database(
    definitions: map<string, Definition>,
    revisions: map<(string, nat), Revision>,
    instances: map<string, Instance>,
    tasks: map<string, Task>,
    history: map<string, HistoryRow>,
    outbox: seq<Event>)

  /** The database after a transaction, and what the caller gets. */
  datatype Tx<T> = Tx(db: Database, result: Result<T>)

  const UNDECIDED := OtherDecision("")

  // ---------- definitions ----------

  predicate OwnedBy(d: Definition, tenantId: string, applicationId: string) {
    d.tenantId == tenantId && d.applicationId == applicationId
  }

  /** The primary key and the unique key of the definition table. */
  predicate IsNewDefinition(db: Database, value: Definition) {
    && value.id !in db.definitions
    && forall id | id in db.definitions ::
         !(OwnedBy(db.definitions[id], value.tenantId, value.applicationId) && db.definitions[id].key == value.key)
  }

  function CreateDefinition(db: Database, value: Definition, commits: bool): Tx<()> {
    if !commits || !IsNewDefinition(db, value) then Tx(db, Err(StoreFailure))
    else Tx(db.(definitions := db.definitions[value.id := value.(version := 1)]), Ok(()))
  }

  predicate Matches(db: Database, tenantId: string, applicationId: string, id: string, version: nat,
                    status: DefinitionStatus)
  {
    && id in db.definitions && OwnedBy(db.definitions[id], tenantId, applicationId)
    && db.definitions[id].version == version && db.definitions[id].status == status
  }

  function UpdateDefinition(db: Database, value: Definition, expected: nat, commits: bool): Tx<()> {
    if !commits then Tx(db, Err(StoreFailure))
    else if !Matches(db, value.tenantId, value.applicationId, value.id, expected, Draft) then
      Tx(db, Err(VersionConflict))
    else
      var row := db.definitions[value.id].(name := value.name, description := value.description, nodes := value.nodes,
                                           edges := value.edges, version := expected + 1);
      Tx(db.(definitions := db.definitions[value.id := row]), Ok(()))
  }

  function RevisionOf(d: Definition, revision: nat): Revision {
    Revision(d.id, revision, d.tenantId, d.applicationId, d.key, d.name, d.description, d.nodes, d.edges)
  }

  /** A revision row read back as a definition. */
  function Pinned(r: Revision): Definition {
    Definition(r.definitionId, r.tenantId, r.applicationId, r.key, r.name, r.description, Published, r.revision,
               r.nodes, r.edges, 1)
  }

  function PublishDefinition(db: Database, tenantId: string, applicationId: string, id: string, expected: nat,
                             commits: bool): Tx<Definition>
  {
    if id !in db.definitions || !OwnedBy(db.definitions[id], tenantId, applicationId) then Tx(db, Err(NotFound))
    else
      var current := db.definitions[id];
      var revision := current.publishedRevision + 1;
      if current.version != expected || current.status != Draft then Tx(db, Err(VersionConflict))
      else if (id, revision) in db.revisions || !commits then Tx(db, Err(StoreFailure))
      else
        var row := current.(status := Published, publishedRevision := revision, version := expected + 1);
        Tx(db.(definitions := db.definitions[id := row],
               revisions := db.revisions[(id, revision) := RevisionOf(current, revision)],
               outbox := db.outbox + [DefinitionPublished(row)]), Ok(row))
  }

  function DisableDefinition(db: Database, tenantId: string, applicationId: string, id: string, expected: nat,
                             commits: bool): Tx<()>
  {
    if !commits then Tx(db, Err(StoreFailure))
    else if !Matches(db, tenantId, applicationId, id, expected, Published) then Tx(db, Err(VersionConflict))
    else
      var row := db.definitions[id].(status := Disabled, version := expected + 1);
      Tx(db.(definitions := db.definitions[id := row]), Ok(()))
  }

  // ---------- instances ----------

  predicate Visible(db: Database, tenantId: string, applicationId: string, id: string) {
    id in db.instances && db.instances[id].tenantId == tenantId && db.instances[id].applicationId == applicationId
  }

  /** The primary key, the two unique constraints and the foreign key of the instance table. */
  predicate InsertableInstance(db: Database, value: Instance) {
    && value.id !in db.instances
    && value.definitionId in db.definitions
    && forall id | id in db.instances && db.instances[id].tenantId == value.tenantId ::
         && !(db.instances[id].applicationId == value.applicationId
            && db.instances[id].idempotencyKey == value.idempotencyKey)
         && !(db.instances[id].definitionId == value.definitionId && db.instances[id].businessKey == value.businessKey)
  }

  function CreateInstance(db: Database, value: Instance, definition: Definition, commits: bool): Tx<Instance> {
    if !commits || !InsertableInstance(db, value) then Tx(db, Err(StoreFailure))
    else Tx(db.(instances := db.instances[value.id := value.(version := 1)],
                outbox := db.outbox + [StartRequested(value, definition)]), Ok(value))
  }

  function CancelInstance(db: Database, tenantId: string, applicationId: string, id: string, expected: nat,
                          reason: string,
                          now: int, commits: bool): Tx<Instance> {
    if !Visible(db, tenantId, applicationId, id) || db.instances[id].version != expected
      || db.instances[id].status != Running then
      Tx(db, Err(VersionConflict))
    else if !commits then Tx(db, Err(StoreFailure))
    else
      var row := db.instances[id].(status := Cancelled, errorMessage := reason, finishedAt := Some(now),
                                   version := expected + 1);
      Tx(db.(instances := db.instances[id := row], outbox := db.outbox + [CancellationRequested(row, reason)]), Ok(row))
  }

  /** Moves a running instance to `nodeId`; other instances stay. */
  function Advanced(instance: Instance, nodeId: string): Instance {
    if instance.status == Running && instance.currentNodeId != nodeId
    then instance.(currentNodeId := nodeId, version := instance.version + 1)
    else instance
  }

  function UpdateInstanceNode(db: Database, tenantId: string, applicationId: string, id: string, nodeId: string,
                              commits: bool): Tx<()>
  {
    if !commits then Tx(db, Err(StoreFailure))
    else if !Visible(db, tenantId, applicationId, id) then Tx(db, Err(NotFound))
    else if db.instances[id].status != Running then Tx(db, Err(Conflict))
    else Tx(db.(instances := db.instances[id := Advanced(db.instances[id], nodeId)]), Ok(()))
  }

  function FinishInstance(db: Database, tenantId: string, applicationId: string, id: string, status: InstanceStatus,
                          result: string,
                          errorMessage: string, now: int, commits: bool): Tx<Instance> {
    if !Visible(db, tenantId, applicationId, id) then Tx(db, Err(NotFound))
    else
      var current := db.instances[id];
      if current.status == status then Tx(db, Ok(current))
      else if current.status != Running then Tx(db, Err(Conflict))
      else if !commits then Tx(db, Err(StoreFailure))
      else
        var row := current.(status := status, result := result, errorMessage := errorMessage, finishedAt := Some(now),
                            version := current.version + 1);
        Tx(db.(instances := db.instances[id := row], outbox := db.outbox + [StatusChanged(row, Running)]), Ok(row))
  }

  // ---------- tasks ----------

  /** The task of an instance and node, if there is one. */
  predicate IsTaskOf(t: Task, tenantId: string, applicationId: string, instanceId: string, nodeId: string) {
    t.tenantId == tenantId && t.applicationId == applicationId && t.instanceId == instanceId && t.nodeId == nodeId
  }

  predicate HasTask(db: Database, value: Task) {
    exists id :: id in db.tasks
      && IsTaskOf(db.tasks[id], value.tenantId, value.applicationId, value.instanceId, value.nodeId)
  }

  /** The primary key, the unique (instance, node) pair and the assignee check of the task table. */
  predicate InsertableTask(db: Database, value: Task) {
    && value.id !in db.tasks && !value.assigneeType.OtherAssignee?
    && forall id | id in db.tasks ::
       !(db.tasks[id].instanceId == value.instanceId && db.tasks[id].nodeId == value.nodeId)
  }

  function CreateTask(db: Database, value: Task, commits: bool): Tx<()> {
    if HasTask(db, value) then Tx(db, Ok(()))
    else if !Visible(db, value.tenantId, value.applicationId, value.instanceId) then Tx(db, Err(NotFound))
    else if db.instances[value.instanceId].status != Running then Tx(db, Err(Conflict))
    else if !commits || !InsertableTask(db, value) then Tx(db, Err(StoreFailure))
    else
      Tx(db.(instances := db.instances[value.instanceId := Advanced(db.instances[value.instanceId], value.nodeId)],
             tasks := db.tasks[value.id := value.(version := 1)],
             outbox := db.outbox + [TaskCreated(value)]), Ok(()))
  }

  function ClaimRow(t: Task, historyId: string, actor: string, now: int): HistoryRow {
    HistoryRow(historyId, t.tenantId, t.applicationId, t.id, t.instanceId, ClaimAction, actor, Pending, Claimed,
               NoDetail, now)
  }

  function ClaimTask(db: Database, tenantId: string, applicationId: string, id: string, expected: nat, actor: string,
                     historyId: string, now: int, commits: bool): Tx<Task> {
    if id !in db.tasks || db.tasks[id].tenantId != tenantId || db.tasks[id].applicationId != applicationId
       || db.tasks[id].version != expected || db.tasks[id].status != Pending then Tx(db, Err(VersionConflict))
    else if !commits || historyId in db.history then Tx(db, Err(StoreFailure))
    else
      var row := db.tasks[id].(status := Claimed, claimedBy := actor, version := expected + 1);
      Tx(db.(tasks := db.tasks[id := row], history := db.history[historyId := ClaimRow(row, historyId, actor, now)]),
         Ok(row))
  }

  /** The row condition shared by completion and delegation. */
  predicate Open(db: Database, current: Task, actor: string) {
    && current.id in db.tasks
    && var row := db.tasks[current.id];
       && row.tenantId == current.tenantId && row.version == current.version
       && row.status in {Pending, Claimed} && (row.claimedBy == "" || row.claimedBy == actor)
  }

  function DecidedStatus(decision: Decision): TaskStatus {
    if decision == Reject then TaskRejected else TaskApproved
  }

  function CompleteRow(current: Task, decision: Decision, comment: string, historyId: string, actor: string,
                       now: int): HistoryRow
  {
    HistoryRow(historyId, current.tenantId, current.applicationId, current.id, current.instanceId, CompleteAction,
               actor,
               current.status, DecidedStatus(decision), DecisionDetail(decision, comment), now)
  }

  function CompleteTask(db: Database, current: Task, decision: Decision, comment: string, output: string, actor: string,
                        historyId: string, now: int, commits: bool): Tx<Task> {
    if !Open(db, current, actor) then Tx(db, Err(VersionConflict))
    else if historyId in db.history then Tx(db, Err(StoreFailure))
    else if db.tasks[current.id].applicationId != current.applicationId then Tx(db, Err(NotFound))
    else if !commits then Tx(db, Err(StoreFailure))
    else
      var row := db.tasks[current.id].(status := DecidedStatus(decision), decision := decision, comment := comment,
                                       output := output,
                                       completedAt := Some(now), version := current.version + 1);
      Tx(db.(tasks := db.tasks[current.id := row],
             history := db.history[historyId := CompleteRow(current, decision, comment, historyId, actor, now)],
             outbox := db.outbox + [TaskCompleted(row)]), Ok(row))
  }

  function DelegateRow(current: Task, to: string, reason: string, historyId: string, actor: string,
                       now: int): HistoryRow
  {
    HistoryRow(historyId, current.tenantId, current.applicationId, current.id, current.instanceId, DelegateAction,
               actor,
               current.status, Pending, DelegationDetail(to, reason), now)
  }

  function DelegateTask(db: Database, current: Task, to: string, reason: string, actor: string,
                        historyId: string, now: int, commits: bool): Tx<()> {
    if !Open(db, current, actor) then Tx(db, Err(VersionConflict))
    else if historyId in db.history || !commits then Tx(db, Err(StoreFailure))
    else
      var row := db.tasks[current.id].(assigneeType := User, assignee := to, claimedBy := "", status := Pending,
                                       version := current.version + 1);
      Tx(db.(tasks := db.tasks[current.id := row],
             history := db.history[historyId := DelegateRow(current, to, reason, historyId, actor, now)]), Ok(()))
  }

  // ---------- retention ----------

  predicate IsTerminal(status: InstanceStatus) {
    status != Running
  }

  /** A history row whose instance ended before the cutoff. */
  predicate Expired(db: Database, before: int, id: string) {
    && id in db.history
    && var row := db.history[id];
       && row.instanceId in db.instances && db.instances[row.instanceId].tenantId == row.tenantId
       && IsTerminal(db.instances[row.instanceId].status)
       && db.instances[row.instanceId].finishedAt.Some? && db.instances[row.instanceId].finishedAt.value < before
  }

  function PurgeHistory(db: Database, ids: set<string>): Database {
    db.(history := db.history - ids)
  }
}
