/** Who may change what: laws of whole behaviours of the database about actors, tenants and unique keys. */
module AccessLaws {
  import opened Text
  import opened Model
  import opened Tables
  import opened Service
  import opened Ledger
  import opened LedgerProofs
  import opened LedgerLaws

  // ---------- when an operation on a task succeeds ----------

  /**
   An operation on a task succeeds if and only if its transaction commits under a new history identifier while the row
   is still the very one that was read and is open to it; a claim needs it to be pending.
   */
  lemma OperationLaw(isJson: string -> bool, b: Behaviour, n: nat)
    requires Legal(isJson, b) && n < |b.steps| && IsTaskOperation(b.steps[n].action)
    ensures var a, db := b.steps[n].action, b.states[n].db;
            Succeeds(b, n)
            <==>
              && b.steps[n].commits && a.historyId !in db.history
              && a.task.id in db.tasks && db.tasks[a.task.id] == a.task
              && (if a.Claim? then a.task.status == Pending else a.task.status in {Pending, Claimed})
  {
    Reachable(isJson, b, n);
    assert Allowed(isJson, b, n);
    StepRuns(isJson, b, n);
    OpenOperationSucceeds(b.steps[n].env, b.states[n], b.steps[n].action, b.steps[n].commits);
    if Succeeds(b, n) {
      AuthorisedLaw(isJson, b, n);
    }
  }

  lemma OpenOperationSucceeds(env: Env, w: World, a: Action, commits: bool)
    requires TasksOk(w) && Admissible(env, w, a) && IsTaskOperation(a)
    ensures Run(w.db, a, commits) != w.db ==> commits && a.historyId !in w.db.history
    ensures
      && commits && a.historyId !in w.db.history && a.task.id in w.db.tasks && w.db.tasks[a.task.id] == a.task
      && (if a.Claim? then a.task.status == Pending else a.task.status in {Pending, Claimed})
      ==> Run(w.db, a, commits) != w.db
  {
    if a.task.id in w.db.tasks && w.db.tasks[a.task.id] == a.task && Run(w.db, a, commits) == w.db {
      assert TaskOk(w.db, a.task);
      assert a.task.version != a.task.version + 1;
    }
  }

  // ---------- assignment ----------

  predicate OperatedBetween(b: Behaviour, i: nat, j: nat, id: string) {
    exists n: nat {:trigger b.steps[n]} :: i <= n < j && Succeeds(b, n) && IsTaskOperation(b.steps[n].action)
      && b.steps[n].action.task.id == id
  }

  /** Without a successful operation on it, a row stays as it is. */
  lemma {:induction false} RowUntouched(isJson: string -> bool, b: Behaviour, i: nat, j: nat, id: string)
    requires Legal(isJson, b) && i <= j <= |b.steps| && id in b.states[i].db.tasks && !OperatedBetween(b, i, j, id)
    ensures id in b.states[j].db.tasks && b.states[j].db.tasks[id] == b.states[i].db.tasks[id]
    decreases j
  {
    if i < j {
      assert !OperatedBetween(b, i, j - 1, id);
      RowUntouched(isJson, b, i, j - 1, id);
      StepRuns(isJson, b, j - 1);
      OthersKeepRow(b.states[j - 1].db, b.steps[j - 1].action, b.steps[j - 1].commits, id);
    }
  }

  /** After a successful delegation, the next successful operation on the task is one of the delegate. */
  lemma DelegationLaw(isJson: string -> bool, b: Behaviour, i: nat, j: nat)
    requires Legal(isJson, b) && i < j && Succeeds(b, i) && b.steps[i].action.Delegate?
    requires Succeeds(b, j) && IsTaskOperation(b.steps[j].action)
    requires b.steps[j].action.task.id == b.steps[i].action.task.id
    requires !OperatedBetween(b, i + 1, j, b.steps[i].action.task.id)
    ensures b.steps[j].action.actor == Trim(b.steps[i].action.to)
  {
    AuthorisedLaw(isJson, b, i);
    RowUntouched(isJson, b, i + 1, j, b.steps[i].action.task.id);
    AuthorisedLaw(isJson, b, j);
  }

  predicate DelegatedBetween(b: Behaviour, i: nat, j: nat, id: string) {
    exists n: nat {:trigger b.steps[n]} :: i <= n < j && Succeeds(b, n) && b.steps[n].action.Delegate?
      && b.steps[n].action.task.id == id
  }

  predicate SameAssignee(s: Task, t: Task) {
    s.assigneeType == t.assigneeType && s.assignee == t.assignee
  }

  /** Only a delegation changes whom a task is assigned to; its name, node and input never change. */
  lemma {:induction false} AssigneeLaw(isJson: string -> bool, b: Behaviour, i: nat, j: nat, id: string)
    requires Legal(isJson, b) && i <= j <= |b.steps| && id in b.states[i].db.tasks
    ensures id in b.states[j].db.tasks
    ensures var before, after := b.states[i].db.tasks[id], b.states[j].db.tasks[id];
            && before.name == after.name && before.input == after.input && before.nodeId == after.nodeId
            && before.instanceId == after.instanceId
            && (!DelegatedBetween(b, i, j, id) ==> SameAssignee(before, after))
    decreases j
  {
    Onward(isJson, b, i, j);
    assert SameIdentity(b.states[i].db.tasks[id], b.states[j].db.tasks[id]);
    if i < j && !DelegatedBetween(b, i, j, id) {
      assert !DelegatedBetween(b, i, j - 1, id);
      AssigneeLaw(isJson, b, i, j - 1, id);
      AssigneeStays(isJson, b, j - 1, id);
    }
  }

  lemma AssigneeStays(isJson: string -> bool, b: Behaviour, n: nat, id: string)
    requires Legal(isJson, b) && n < |b.steps| && id in b.states[n].db.tasks
    requires !(Succeeds(b, n) && b.steps[n].action.Delegate? && b.steps[n].action.task.id == id)
    ensures id in b.states[n + 1].db.tasks
    ensures SameAssignee(b.states[n].db.tasks[id], b.states[n + 1].db.tasks[id])
  {
    if Succeeds(b, n) && IsTaskOperation(b.steps[n].action) && b.steps[n].action.task.id == id {
      AuthorisedLaw(isJson, b, n);
    } else {
      StepRuns(isJson, b, n);
      OthersKeepRow(b.states[n].db, b.steps[n].action, b.steps[n].commits, id);
    }
  }

  /** The refusal to delegate to oneself compares the text as sent: with white space around it, it goes through. */
  lemma DelegatesToSelf(env: Env, w: World, t: Task)
    requires t in w.seenTasks && t.version >= 1 && t.assigneeType == User && t.assignee == "u" && t.claimedBy == ""
    ensures Admissible(env, w, Delegate(t, " u", "r", "u", "h", 0)) && Trim(" u") == "u"
    ensures !Admissible(env, w, Delegate(t, "u", "r", "u", "h", 0))
  {
    assert TrimLeft(" u") == TrimLeft("u") == "u" && TrimLeft("r") == "r";
  }

  // ---------- tenants ----------

  /** The tenant and application an operation acts for. */
  function ScopeOf(a: Action): (string, string)
    requires !a.Purge?
  {
    match a
    case Create(value) => (value.tenantId, value.applicationId)
    case Update(_, _, _, _, _, read) => (read.tenantId, read.applicationId)
    case Publish(_, read) => (read.tenantId, read.applicationId)
    case Disable(tenantId, applicationId, _, _) => (tenantId, applicationId)
    case Launch(instance, _) => (instance.tenantId, instance.applicationId)
    case Cancel(tenantId, applicationId, _, _, _, _) => (tenantId, applicationId)
    case NewTask(task) => (task.tenantId, task.applicationId)
    case MoveTo(tenantId, applicationId, _, _) => (tenantId, applicationId)
    case Conclude(tenantId, applicationId, _, _, _, _, _) => (tenantId, applicationId)
    case Claim(task, _, _, _) => (task.tenantId, task.applicationId)
    case Complete(task, _, _, _, _, _, _) => (task.tenantId, task.applicationId)
    case Delegate(task, _, _, _, _, _) => (task.tenantId, task.applicationId)
  }

  /** Every definition that is new or different in `later` belongs to the scope, and was in it before. */
  predicate DefinitionsWithin(db: Database, later: Database, scope: (string, string)) {
    forall id | id in later.definitions && !(id in db.definitions && db.definitions[id] == later.definitions[id]) ::
      && (later.definitions[id].tenantId, later.definitions[id].applicationId) == scope
      && (id in db.definitions ==> (db.definitions[id].tenantId, db.definitions[id].applicationId) == scope)
  }

  predicate InstancesWithin(db: Database, later: Database, scope: (string, string)) {
    forall id | id in later.instances && !(id in db.instances && db.instances[id] == later.instances[id]) ::
      && (later.instances[id].tenantId, later.instances[id].applicationId) == scope
      && (id in db.instances ==> (db.instances[id].tenantId, db.instances[id].applicationId) == scope)
  }

  predicate TasksWithin(db: Database, later: Database, scope: (string, string)) {
    forall id | id in later.tasks && !(id in db.tasks && db.tasks[id] == later.tasks[id]) ::
      && (later.tasks[id].tenantId, later.tasks[id].applicationId) == scope
      && (id in db.tasks ==> (db.tasks[id].tenantId, db.tasks[id].applicationId) == scope)
  }

  predicate HistoryWithin(db: Database, later: Database, scope: (string, string)) {
    forall id | id in later.history && !(id in db.history && db.history[id] == later.history[id]) ::
      (later.history[id].tenantId, later.history[id].applicationId) == scope
  }

  predicate RevisionsWithin(db: Database, later: Database, scope: (string, string)) {
    forall k | k in later.revisions && k !in db.revisions ::
      (later.revisions[k].tenantId, later.revisions[k].applicationId) == scope
  }

  /** The tenant and application an event belongs to. */
  function EventScope(e: Event): (string, string) {
    match e
    case DefinitionPublished(d) => (d.tenantId, d.applicationId)
    case StartRequested(i, _) => (i.tenantId, i.applicationId)
    case CancellationRequested(i, _) => (i.tenantId, i.applicationId)
    case StatusChanged(i, _) => (i.tenantId, i.applicationId)
    case TaskCreated(t) => (t.tenantId, t.applicationId)
    case TaskCompleted(t) => (t.tenantId, t.applicationId)
  }

  predicate OutboxWithin(db: Database, later: Database, scope: (string, string)) {
    forall p | |db.outbox| <= p < |later.outbox| :: EventScope(later.outbox[p]) == scope
  }

  /** Isolation: an operation changes, adds and announces only what belongs to its own tenant and application. */
  lemma TenantLaw(isJson: string -> bool, b: Behaviour, n: nat)
    requires Legal(isJson, b) && n < |b.steps| && !b.steps[n].action.Purge?
    ensures var db, later, scope := b.states[n].db, b.states[n + 1].db, ScopeOf(b.steps[n].action);
            && DefinitionsWithin(db, later, scope) && InstancesWithin(db, later, scope)
            && TasksWithin(db, later, scope) && HistoryWithin(db, later, scope)
            && RevisionsWithin(db, later, scope) && OutboxWithin(db, later, scope)
  {
    Reachable(isJson, b, n);
    assert Allowed(isJson, b, n);
    StepRuns(isJson, b, n);
    var Step(env, a, commits) := b.steps[n];
    OwnDefinitions(b.states[n].db, a, commits);
    OwnInstances(b.states[n].db, a, commits);
    if IsTaskOperation(a) && Run(b.states[n].db, a, commits) != b.states[n].db {
      OperationReplaces(env, b.states[n], a, commits);
      OwnRecord(b.states[n].db, a, commits);
    } else {
      OwnRows(b.states[n].db, a, commits);
    }
  }

  lemma OwnDefinitions(db: Database, a: Action, commits: bool)
    requires !a.Purge?
    ensures var later := Run(db, a, commits);
            DefinitionsWithin(db, later, ScopeOf(a)) && RevisionsWithin(db, later, ScopeOf(a))
  {
    if !(a.Create? || a.Update? || a.Publish? || a.Disable?) {
      assert Run(db, a, commits).definitions == db.definitions;
    }
  }

  lemma OwnInstances(db: Database, a: Action, commits: bool)
    requires !a.Purge?
    ensures InstancesWithin(db, Run(db, a, commits), ScopeOf(a))
  {
    if a.Launch? || a.NewTask? {
      OwnNewInstances(db, a, commits);
    } else if MovesInstance(a) {
      OwnMovedInstances(db, a, commits);
    } else {
      assert Run(db, a, commits).instances == db.instances;
    }
  }

  lemma OwnNewInstances(db: Database, a: Action, commits: bool)
    requires a.Launch? || a.NewTask?
    ensures InstancesWithin(db, Run(db, a, commits), ScopeOf(a))
  {
  }

  lemma OwnMovedInstances(db: Database, a: Action, commits: bool)
    requires a.Cancel? || a.MoveTo? || a.Conclude?
    ensures InstancesWithin(db, Run(db, a, commits), ScopeOf(a))
  {
  }

  lemma OwnRows(db: Database, a: Action, commits: bool)
    requires !a.Purge? && (IsTaskOperation(a) ==> Run(db, a, commits) == db)
    ensures var later := Run(db, a, commits);
            && TasksWithin(db, later, ScopeOf(a)) && HistoryWithin(db, later, ScopeOf(a))
            && OutboxWithin(db, later, ScopeOf(a))
  {
    if !IsTaskOperation(a) {
      OwnEvents(db, a, commits);
    }
  }

  lemma OwnEvents(db: Database, a: Action, commits: bool)
    requires !a.Purge? && !IsTaskOperation(a)
    ensures var later := Run(db, a, commits);
            TasksWithin(db, later, ScopeOf(a)) && later.history == db.history && OutboxWithin(db, later, ScopeOf(a))
  {
  }

  lemma OwnRecord(db: Database, a: Action, commits: bool)
    requires IsTaskOperation(a) && a.task.id in db.tasks && a.task == db.tasks[a.task.id]
    requires Run(db, a, commits) != db
    ensures HistoryWithin(db, Run(db, a, commits), ScopeOf(a)) && OutboxWithin(db, Run(db, a, commits), ScopeOf(a))
  {
    match a
    case Claim(_, _, _, _) =>
    case Complete(_, _, _, _, _, _, _) =>
    case Delegate(_, _, _, _, _, _) =>
  }

  // ---------- unique keys ----------

  predicate SameKey(d: Definition, e: Definition) {
    d.tenantId == e.tenantId && d.applicationId == e.applicationId && d.key == e.key
  }

  /** Two starts under one idempotency key, or for one business key of a definition. */
  predicate SameRequest(i: Instance, j: Instance) {
    i.tenantId == j.tenantId
      && ((i.applicationId == j.applicationId && i.idempotencyKey == j.idempotencyKey)
          || (i.definitionId == j.definitionId && i.businessKey == j.businessKey))
  }

  predicate UniqueKeys(db: Database) {
    && (forall j, k {:trigger SameKey(db.definitions[j], db.definitions[k])}
          | j in db.definitions && k in db.definitions && j != k :: !SameKey(db.definitions[j], db.definitions[k]))
    && (forall j, k {:trigger SameRequest(db.instances[j], db.instances[k])}
          | j in db.instances && k in db.instances && j != k :: !SameRequest(db.instances[j], db.instances[k]))
  }

  /** A new definition or instance brings new keys. */
  lemma NewKeys(db: Database, a: Action, commits: bool)
    ensures var later := Run(db, a, commits);
            && (forall j | j in later.definitions && j !in db.definitions ::
                  later.definitions.Keys == db.definitions.Keys + {j}
                  && forall k | k in db.definitions :: !SameKey(later.definitions[j], db.definitions[k]))
            && (forall j | j in later.instances && j !in db.instances ::
                  later.instances.Keys == db.instances.Keys + {j}
                  && forall k | k in db.instances :: !SameRequest(later.instances[j], db.instances[k]))
  {
  }

  lemma KeysStay(db: Database, a: Action, commits: bool)
    requires UniqueKeys(db) && Evolves(db, Run(db, a, commits))
    ensures UniqueKeys(Run(db, a, commits))
  {
    var later := Run(db, a, commits);
    NewKeys(db, a, commits);
    DefinitionKeysStay(db, later);
    InstanceKeysStay(db, later);
  }

  lemma DefinitionKeysStay(db: Database, later: Database)
    requires UniqueKeys(db) && Evolves(db, later)
    requires forall j | j in later.definitions && j !in db.definitions ::
               later.definitions.Keys == db.definitions.Keys + {j}
               && forall k | k in db.definitions :: !SameKey(later.definitions[j], db.definitions[k])
    ensures forall j, k {:trigger SameKey(later.definitions[j], later.definitions[k])}
              | j in later.definitions && k in later.definitions && j != k ::
              !SameKey(later.definitions[j], later.definitions[k])
  {
    forall j, k | j in later.definitions && k in later.definitions && j != k
      ensures !SameKey(later.definitions[j], later.definitions[k])
    {
      assert j in db.definitions && k in db.definitions ==> !SameKey(db.definitions[j], db.definitions[k]);
    }
  }

  lemma InstanceKeysStay(db: Database, later: Database)
    requires UniqueKeys(db) && Evolves(db, later)
    requires forall j | j in later.instances && j !in db.instances ::
               later.instances.Keys == db.instances.Keys + {j}
               && forall k | k in db.instances :: !SameRequest(later.instances[j], db.instances[k])
    ensures forall j, k {:trigger SameRequest(later.instances[j], later.instances[k])}
              | j in later.instances && k in later.instances && j != k ::
              !SameRequest(later.instances[j], later.instances[k])
  {
    forall j, k | j in later.instances && k in later.instances && j != k
      ensures !SameRequest(later.instances[j], later.instances[k])
    {
      assert j in db.instances && k in db.instances ==> !SameRequest(db.instances[j], db.instances[k]);
    }
  }

  /**
   In every reachable state keys are unique: one definition for a key of a tenant and application, one instance for an
   idempotency key, and one for a business key of a definition.
   */
  lemma {:induction false} UniqueLaw(isJson: string -> bool, b: Behaviour, n: nat)
    requires Legal(isJson, b) && n <= |b.steps|
    ensures UniqueKeys(b.states[n].db)
  {
    if n > 0 {
      UniqueLaw(isJson, b, n - 1);
      UniqueAtStep(isJson, b, n - 1);
    }
  }

  lemma UniqueAtStep(isJson: string -> bool, b: Behaviour, n: nat)
    requires Legal(isJson, b) && n < |b.steps| && UniqueKeys(b.states[n].db)
    ensures UniqueKeys(b.states[n + 1].db)
  {
    StepRuns(isJson, b, n);
    StepEvolves(isJson, b, n);
    KeysStay(b.states[n].db, b.steps[n].action, b.steps[n].commits);
  }

  /** However often a start is retried under one idempotency key, whatever happens in between, one instance results. */
  lemma StartOnceLaw(isJson: string -> bool, b: Behaviour, i: nat, j: nat)
    requires Legal(isJson, b) && i < j < |b.steps| && Succeeds(b, i)
    requires b.steps[i].action.Launch? && b.steps[j].action.Launch?
    requires SameRequest(b.steps[i].action.instance, b.steps[j].action.instance)
    ensures !Succeeds(b, j)
  {
    var first, second := b.steps[i].action.instance, b.steps[j].action.instance;
    StepRuns(isJson, b, i);
    StepRuns(isJson, b, j);
    Onward(isJson, b, i + 1, j);
    assert SameLaunch(b.states[i + 1].db.instances[first.id], b.states[j].db.instances[first.id]);
  }

  // ---------- stale reads ----------

  predicate IsRow(db: Database, t: Task) {
    t.id in db.tasks && db.tasks[t.id] == t
  }

  /** The row was stored in some state up to `n`. */
  predicate WasStored(b: Behaviour, n: nat, t: Task)
    requires n < |b.states|
  {
    exists m: nat {:trigger b.states[m]} :: m <= n && IsRow(b.states[m].db, t)
  }

  /** The rows an operation may have read are exactly the rows that were stored at some time. */
  lemma {:induction false} SeenLaw(isJson: string -> bool, b: Behaviour, n: nat, t: Task)
    requires Legal(isJson, b) && n <= |b.steps|
    ensures t in b.states[n].seenTasks <==> WasStored(b, n, t)
  {
    Reachable(isJson, b, n);
    if IsRow(b.states[n].db, t) {
      StoredIsSeen(b.states[n], t);
    }
    if n > 0 {
      SeenLaw(isJson, b, n - 1, t);
      SeenAtStep(isJson, b, n - 1, t);
    }
  }

  lemma StoredIsSeen(w: World, t: Task)
    requires TasksOk(w) && IsRow(w.db, t)
    ensures t in w.seenTasks
  {
  }

  lemma SeenAtStep(isJson: string -> bool, b: Behaviour, n: nat, t: Task)
    requires Legal(isJson, b) && n < |b.steps|
    ensures t in b.states[n].seenTasks ==> t in b.states[n + 1].seenTasks
    ensures t in b.states[n + 1].seenTasks && t !in b.states[n].seenTasks ==> IsRow(b.states[n + 1].db, t)
  {
    Reachable(isJson, b, n);
    assert Allowed(isJson, b, n);
    NewlySeen(b.states[n], b.steps[n].action, b.steps[n].commits, t);
  }

  lemma NewlySeen(w: World, a: Action, commits: bool, t: Task)
    requires TasksOk(w)
    ensures var later := Next(w, a, commits);
            && (t in w.seenTasks ==> t in later.seenTasks)
            && (t in later.seenTasks && t !in w.seenTasks ==> IsRow(later.db, t))
  {
    if a.NewTask? && Run(w.db, a, commits) == w.db && a.task.id in w.db.tasks {
      assert w.db.tasks[a.task.id] in w.seenTasks && w.db.tasks[a.task.id].id == a.task.id;
    }
  }
}
