/** Invariants of every reachable state of the database, under any interleaving of operations with stale reads. */
module Ledger {
  import opened Text
  import opened Model
  import opened Validation
  import opened Tables
  import opened Service

  // ---------- definitions and revisions ----------

  ghost predicate DefinitionOk(isJson: string -> bool, d: Definition) {
    d.version >= 1 && ValidRow(isJson, d) && d.publishedRevision == (if d.status == Draft then 0 else 1)
  }

  /** A row that was stored is an earlier state of the row that is stored now. */
  ghost predicate Earlier(w: World, d: Definition) {
    && d.id in w.db.definitions
    && var now := w.db.definitions[d.id];
       && d.key == now.key && d.tenantId == now.tenantId && d.applicationId == now.applicationId
       && (d.status != Draft ==> now.status != Draft) && d.publishedRevision == (if d.status == Draft then 0 else 1)
  }

  ghost predicate DefinitionsOk(isJson: string -> bool, w: World) {
    && (forall id {:trigger DefinitionOk(isJson, w.db.definitions[id])} | id in w.db.definitions ::
       DefinitionOk(isJson, w.db.definitions[id]))
    && (forall id {:trigger w.db.definitions[id]} | id in w.db.definitions ::
          w.db.definitions[id].id == id && (w.db.definitions[id].status != Draft <==> (id, 1) in w.db.revisions))
    && (forall k {:trigger w.db.revisions[k]} | k in w.db.revisions ::
          k.1 == 1 && k.0 in w.db.definitions && w.db.revisions[k] == RevisionOf(w.db.definitions[k.0], 1))
    && (forall d {:trigger Earlier(w, d)} | d in w.seenDefinitions :: Earlier(w, d))
  }

  // ---------- instances ----------

  predicate InstanceOk(db: Database, i: Instance) {
    && i.version >= 1
    && (i.finishedAt.Some? <==> IsTerminal(i.status))
    && (i.definitionId, i.definitionRevision) in db.revisions
    && OwnedBy(Pinned(db.revisions[(i.definitionId, i.definitionRevision)]), i.tenantId, i.applicationId)
    && i.id != "" && i.tenantId != "" && i.applicationId != "" && i.starterId != ""
  }

  ghost predicate InstancesOk(w: World) {
    && (forall id {:trigger w.db.instances[id]} | id in w.db.instances :: w.db.instances[id].id == id)
    && (forall id {:trigger InstanceOk(w.db, w.db.instances[id])} | id in w.db.instances ::
       InstanceOk(w.db, w.db.instances[id]))
  }

  // ---------- tasks ----------

  predicate IsDecided(t: Task) {
    t.status in {TaskApproved, TaskRejected}
  }

  predicate TaskOk(db: Database, t: Task) {
    && t.version >= 1
    && t.instanceId in db.instances
    && t.tenantId == db.instances[t.instanceId].tenantId && t.applicationId == db.instances[t.instanceId].applicationId
    && (t.status == Pending ==> t.claimedBy == "")
    && (t.status == Claimed ==> t.claimedBy != "")
    && (t.version == 1 ==> t.status == Pending)
    && (t.completedAt.Some? <==> IsDecided(t))
    && (t.status == TaskApproved <==> t.decision == Approve)
    && (t.status == TaskRejected <==> t.decision == Reject)
    && !t.assigneeType.OtherAssignee?
    && (t.assigneeType in {User, Starter} ==>
          t.assignee != "" && (t.status == Claimed ==> t.claimedBy == t.assignee))
  }

  predicate SameIdentity(s: Task, t: Task) {
    s.id == t.id && s.tenantId == t.tenantId && s.applicationId == t.applicationId && s.instanceId == t.instanceId
      && s.nodeId == t.nodeId && s.name == t.name && s.input == t.input
  }

  predicate SameSlot(s: Task, t: Task) {
    s.instanceId == t.instanceId && s.nodeId == t.nodeId
  }

  predicate SameVersion(s: Task, t: Task) {
    s.id == t.id && s.version == t.version
  }

  ghost predicate TasksOk(w: World) {
    && (forall id {:trigger TaskOk(w.db, w.db.tasks[id])} | id in w.db.tasks :: TaskOk(w.db, w.db.tasks[id]))
    && (forall id {:trigger w.db.tasks[id]} | id in w.db.tasks ::
       w.db.tasks[id].id == id && w.db.tasks[id] in w.seenTasks)
    && (forall j, k {:trigger SameSlot(w.db.tasks[j], w.db.tasks[k])} | j in w.db.tasks && k in w.db.tasks && j != k ::
          !SameSlot(w.db.tasks[j], w.db.tasks[k]))
    && (forall t {:trigger Past(w, t)} | t in w.seenTasks :: Past(w, t))
    && (forall s, t {:trigger SameVersion(s, t)} | s in w.seenTasks && t in w.seenTasks && SameVersion(s, t) :: s == t)
  }

  /** A row that was stored is an earlier version of the row that is stored now. */
  ghost predicate Past(w: World, t: Task) {
    t.id in w.db.tasks && SameIdentity(t, w.db.tasks[t.id]) && t.version <= w.db.tasks[t.id].version
  }

  // ---------- the history journal ----------

  /** The rows ever written for one task, in order. */
  function RowsOf(journal: seq<HistoryRow>, taskId: string): seq<HistoryRow> {
    if journal == [] then [] else
    var last := journal[|journal| - 1];
    RowsOf(journal[..|journal| - 1], taskId) + (if last.taskId == taskId then [last] else [])
  }

  /** A chain of status changes from `first` to `last`. */
  predicate Chain(rows: seq<HistoryRow>, first: TaskStatus, last: TaskStatus) {
    if rows == [] then first == last
    else rows[|rows| - 1].toStatus == last && Chain(rows[..|rows| - 1], first, rows[|rows| - 1].fromStatus)
  }

  /** One row for each version after the first, from pending to the current status. */
  predicate Logged(journal: seq<HistoryRow>, t: Task) {
    |RowsOf(journal, t.id)| == t.version - 1 && Chain(RowsOf(journal, t.id), Pending, t.status)
  }

  ghost predicate JournalOk(w: World) {
    && (forall id {:trigger w.db.history[id]} | id in w.db.history ::
       w.db.history[id].id == id && w.db.history[id] in w.journal)
    && (forall id {:trigger Logged(w.journal, w.db.tasks[id])} | id in w.db.tasks :: Logged(w.journal, w.db.tasks[id]))
    && (forall id {:trigger RowsOf(w.journal, id)} | id !in w.db.tasks :: RowsOf(w.journal, id) == [])
  }

  // ---------- assignment ----------

  /** Whom a task is assigned to after these rows, when it was assigned to `kind` and `assignee` at first. */
  function AssigneeAfter(rows: seq<HistoryRow>, kind: AssigneeType, assignee: string): (AssigneeType, string) {
    if rows == [] then (kind, assignee) else
    var last := rows[|rows| - 1];
    if last.detail.DelegationDetail? then (User, last.detail.to)
    else AssigneeAfter(rows[..|rows| - 1], kind, assignee)
  }

  /** `first` is the first version of the row, which is now assigned as its history rows say. */
  predicate BeganAs(w: World, t: Task, first: Task) {
    && first in w.seenTasks && first.version == 1 && SameIdentity(first, t)
    && (t.assigneeType, t.assignee) == AssigneeAfter(RowsOf(w.journal, t.id), first.assigneeType, first.assignee)
  }

  ghost predicate IsHeld(w: World, t: Task) {
    exists first :: BeganAs(w, t, first)
  }

  ghost predicate HoldersOk(w: World) {
    forall id {:trigger IsHeld(w, w.db.tasks[id])} | id in w.db.tasks :: IsHeld(w, w.db.tasks[id])
  }

  // ---------- the outbox ----------

  /** What an event reports. */
  datatype Fact = Revised(id: string, revision: nat) | Started(id: string) | WasCancelled(id: string)
    | WasFinished(id: string)
                | Assigned(id: string) | WasDecided(id: string)

  function FactOf(e: Event): Fact {
    match e
    case DefinitionPublished(d) => Revised(d.id, d.publishedRevision)
    case StartRequested(i, _) => Started(i.id)
    case CancellationRequested(i, _) => WasCancelled(i.id)
    case StatusChanged(i, _) => WasFinished(i.id)
    case TaskCreated(t) => Assigned(t.id)
    case TaskCompleted(t) => WasDecided(t.id)
  }

  predicate Holds(db: Database, f: Fact) {
    match f
    case Revised(id, revision) => (id, revision) in db.revisions
    case Started(id) => id in db.instances
    case WasCancelled(id) => id in db.instances && db.instances[id].status == Cancelled
    case WasFinished(id) => id in db.instances && db.instances[id].status !in {Running, Cancelled}
    case Assigned(id) => id in db.tasks
    case WasDecided(id) => id in db.tasks && IsDecided(db.tasks[id])
  }

  function Count(outbox: seq<Event>, f: Fact): nat {
    if outbox == [] then 0 else
    Count(outbox[..|outbox| - 1], f) + (if FactOf(outbox[|outbox| - 1]) == f then 1 else 0)
  }

  /** The payload of an event agrees with the tables. */
  ghost predicate Faithful(db: Database, e: Event) {
    match e
    case DefinitionPublished(d) =>
      && (d.id, d.publishedRevision) in db.revisions
      && RevisionOf(d, d.publishedRevision) == db.revisions[(d.id, d.publishedRevision)]
    case StartRequested(i, d) =>
      && i.id in db.instances && SameLaunch(i, db.instances[i.id])
      && (i.definitionId, i.definitionRevision) in db.revisions
         && d == Pinned(db.revisions[(i.definitionId, i.definitionRevision)])
    case CancellationRequested(i, reason) =>
      i.id in db.instances && db.instances[i.id] == i && i.status == Cancelled && i.errorMessage == reason
    case StatusChanged(i, previous) =>
      i.id in db.instances && db.instances[i.id] == i && i.status !in {Running, Cancelled} && previous == Running
    case TaskCreated(t) => t.id in db.tasks && SameIdentity(t, db.tasks[t.id])
    case TaskCompleted(t) => t.id in db.tasks && db.tasks[t.id] == t && IsDecided(t)
  }

  /** What of an instance never changes. */
  predicate SameLaunch(i: Instance, j: Instance) {
    && i.id == j.id && i.tenantId == j.tenantId && i.applicationId == j.applicationId
    && i.definitionId == j.definitionId && i.definitionRevision == j.definitionRevision
    && i.starterId == j.starterId && i.variables == j.variables && i.businessKey == j.businessKey
       && i.idempotencyKey == j.idempotencyKey
  }

  ghost predicate OutboxOk(w: World) {
    && (forall f {:trigger Count(w.db.outbox, f)} {:trigger Holds(w.db, f)} ::
       Count(w.db.outbox, f) == if Holds(w.db, f) then 1 else 0)
    && (forall e {:trigger Faithful(w.db, e)} | e in w.db.outbox :: Faithful(w.db, e))
  }

  ghost predicate Inv(isJson: string -> bool, w: World) {
    DefinitionsOk(isJson, w) && InstancesOk(w) && TasksOk(w) && JournalOk(w) && HoldersOk(w) && OutboxOk(w)
  }

  // ---------- what time never takes back ----------

  /** Facts of one database that hold in every later one. */
  ghost predicate Evolves(db: Database, later: Database) {
    && (forall id {:trigger later.definitions[id]} {:trigger id in db.definitions} | id in db.definitions ::
          id in later.definitions && DefinitionEvolves(db.definitions[id], later.definitions[id]))
    && (forall k {:trigger later.revisions[k]} {:trigger k in db.revisions} | k in db.revisions ::
          k in later.revisions && later.revisions[k] == db.revisions[k])
    && (forall id {:trigger later.instances[id]} {:trigger id in db.instances} | id in db.instances ::
          id in later.instances && InstanceEvolves(db.instances[id], later.instances[id]))
    && (forall id {:trigger later.tasks[id]} {:trigger id in db.tasks} | id in db.tasks ::
          id in later.tasks && TaskEvolves(db.tasks[id], later.tasks[id]))
    && db.outbox <= later.outbox
  }

  /** A definition never changes again once it has left its draft, except to be disabled. */
  predicate DefinitionEvolves(d: Definition, e: Definition) {
    && d.id == e.id && d.key == e.key && d.tenantId == e.tenantId && d.applicationId == e.applicationId
    && d.version <= e.version && (d.version == e.version ==> d == e)
    && (d.status != Draft ==> e.status != Draft && RevisionOf(d, 1) == RevisionOf(e, 1))
  }

  /** A terminal row is frozen, and versions do not fall. */
  predicate InstanceEvolves(i: Instance, j: Instance) {
    SameLaunch(i, j) && i.version <= j.version && (i.version == j.version ==> i == j)
      && (IsTerminal(i.status) ==> i == j)
  }

  predicate TaskEvolves(s: Task, t: Task) {
    SameIdentity(s, t) && s.version <= t.version && (s.version == t.version ==> s == t) && (IsDecided(s) ==> s == t)
  }
}
