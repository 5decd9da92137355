/** What each operation does to the database, and exactly when it does it, in any behaviour with stale reads. */
module EffectLaws {
  import opened Text
  import opened Model
  import opened Tables
  import opened Service
  import opened Ledger
  import opened LedgerProofs
  import opened LedgerLaws

  /** The instance is there for this tenant and application, and is running. */
  predicate RunsFor(db: Database, tenantId: string, applicationId: string, id: string) {
    && id in db.instances && db.instances[id].tenantId == tenantId && db.instances[id].applicationId == applicationId
    && db.instances[id].status == Running
  }

  lemma StepFacts(isJson: string -> bool, b: Behaviour, n: nat)
    requires Legal(isJson, b) && n < |b.steps|
    ensures Inv(isJson, b.states[n]) && Admissible(b.steps[n].env, b.states[n], b.steps[n].action)
    ensures b.states[n + 1].db == Run(b.states[n].db, b.steps[n].action, b.steps[n].commits)
    ensures b.steps[n].env.isJson == isJson
  {
    Reachable(isJson, b, n);
    assert Allowed(isJson, b, n);
  }

  // ---------- definitions ----------

  /** A draft is created with its key unless the tenant and application have that key already. */
  lemma CreateLaw(isJson: string -> bool, b: Behaviour, n: nat)
    requires Legal(isJson, b) && n < |b.steps| && b.steps[n].action.Create?
    ensures var value, db := b.steps[n].action.value, b.states[n].db;
            && (Succeeds(b, n)
                <==>
                  && b.steps[n].commits && value.id !in db.definitions
                  && forall id | id in db.definitions ::
                       db.definitions[id].key == value.key && db.definitions[id].tenantId == value.tenantId
                       ==> db.definitions[id].applicationId != value.applicationId)
            && (Succeeds(b, n) ==> b.states[n + 1].db == db.(definitions := db.definitions[value.id := value]))
            && value.status == Draft && value.version == 1
  {
    StepFacts(isJson, b, n);
  }

  /**
   An update changes a definition if and only if it is still a draft of the expected version, and leaves it with exactly
   the trimmed name and description and the graph that were given.
   */
  lemma UpdateLaw(isJson: string -> bool, b: Behaviour, n: nat)
    requires Legal(isJson, b) && n < |b.steps| && b.steps[n].action.Update?
    ensures var a, db := b.steps[n].action, b.states[n].db;
            && a.read.id in db.definitions
            && var was := db.definitions[a.read.id];
               && (Succeeds(b, n) <==> b.steps[n].commits && was.version == a.expected && was.status == Draft)
               && (Succeeds(b, n) ==>
                     b.states[n + 1].db == db.(
                       definitions := db.definitions[a.read.id :=
                         was.(name := Trim(a.name), description := Trim(a.description), nodes := a.nodes,
                              edges := a.edges, version := a.expected + 1)]))
  {
    StepFacts(isJson, b, n);
    UpdateEffect(isJson, b.states[n], b.steps[n].action, b.steps[n].commits);
  }

  lemma UpdateEffect(isJson: string -> bool, w: World, a: Action, commits: bool)
    requires DefinitionsOk(isJson, w) && a.Update? && a.read in w.seenDefinitions
    ensures a.read.id in w.db.definitions
    ensures var was, later := w.db.definitions[a.read.id], Run(w.db, a, commits);
            && (later != w.db <==> commits && was.version == a.expected && was.status == Draft)
            && (later != w.db ==>
                  later == w.db.(
                    definitions := w.db.definitions[a.read.id :=
                      was.(name := Trim(a.name), description := Trim(a.description), nodes := a.nodes,
                           edges := a.edges, version := a.expected + 1)]))
  {
    assert Earlier(w, a.read);
    var was, later := w.db.definitions[a.read.id], Run(w.db, a, commits);
    if commits && was.version == a.expected && was.status == Draft {
      assert later.definitions[a.read.id].version == was.version + 1;
    }
  }

  /** The draft has become published revision 1, frozen with the content it had, and that was announced. */
  predicate IsPublication(db: Database, later: Database, was: Definition) {
    var row := was.(status := Published, publishedRevision := 1, version := was.version + 1);
    later == db.(
      definitions := db.definitions[was.id := row],
      revisions := db.revisions[(was.id, 1) :=
        Revision(was.id, 1, was.tenantId, was.applicationId, was.key, was.name, was.description, was.nodes,
                 was.edges)],
      outbox := db.outbox + [DefinitionPublished(row)])
  }

  /**
   A publication succeeds if and only if the definition is still a draft of the expected version; its revision is always
   new.  The revision holds the content that is stored then, whatever older row was validated.
   */
  lemma PublishLaw(isJson: string -> bool, b: Behaviour, n: nat)
    requires Legal(isJson, b) && n < |b.steps| && b.steps[n].action.Publish?
    ensures var a, db := b.steps[n].action, b.states[n].db;
            && a.read.id in db.definitions
            && var was := db.definitions[a.read.id];
               && (Succeeds(b, n) <==> b.steps[n].commits && was.version == a.expected && was.status == Draft)
               && (Succeeds(b, n) ==> IsPublication(db, b.states[n + 1].db, was))
  {
    StepFacts(isJson, b, n);
    PublishEffect(isJson, b.states[n], b.steps[n].action, b.steps[n].commits);
  }

  lemma PublishEffect(isJson: string -> bool, w: World, a: Action, commits: bool)
    requires DefinitionsOk(isJson, w) && a.Publish? && a.read in w.seenDefinitions
    ensures a.read.id in w.db.definitions
    ensures var was, later := w.db.definitions[a.read.id], Run(w.db, a, commits);
            && (later != w.db <==> commits && was.version == a.expected && was.status == Draft)
            && (later != w.db ==> IsPublication(w.db, later, was))
  {
    assert Earlier(w, a.read);
    assert DefinitionOk(isJson, w.db.definitions[a.read.id]);
    DraftIsPublished(w.db, a.read.tenantId, a.read.applicationId, a.read.id, a.expected, commits);
  }

  lemma DraftIsPublished(db: Database, tenantId: string, applicationId: string, id: string, expected: nat,
                         commits: bool)
    requires id in db.definitions && OwnedBy(db.definitions[id], tenantId, applicationId)
    requires db.definitions[id].id == id
    requires db.definitions[id].status == Draft ==>
               db.definitions[id].publishedRevision == 0 && (id, 1) !in db.revisions
    ensures var was, later := db.definitions[id],
                              PublishDefinition(db, tenantId, applicationId, id, expected, commits).db;
            && (later != db <==> commits && was.version == expected && was.status == Draft)
            && (later != db ==> IsPublication(db, later, was))
  {
    var was, later := db.definitions[id], PublishDefinition(db, tenantId, applicationId, id, expected, commits).db;
    if commits && was.version == expected && was.status == Draft {
      assert later.definitions[id].version == was.version + 1;
    }
  }

  /** A definition is disabled if and only if it is published under the expected version. */
  lemma DisableLaw(isJson: string -> bool, b: Behaviour, n: nat)
    requires Legal(isJson, b) && n < |b.steps| && b.steps[n].action.Disable?
    ensures var a, db := b.steps[n].action, b.states[n].db;
            && (Succeeds(b, n)
                <==>
                  && b.steps[n].commits && a.id in db.definitions && db.definitions[a.id].version == a.expected
                  && db.definitions[a.id].status == Published && db.definitions[a.id].tenantId == a.tenantId
                  && db.definitions[a.id].applicationId == a.applicationId)
            && (Succeeds(b, n) ==>
                  b.states[n + 1].db == db.(
                    definitions := db.definitions[a.id :=
                      db.definitions[a.id].(status := Disabled, version := a.expected + 1)]))
  {
    StepFacts(isJson, b, n);
  }

  // ---------- instances ----------

  /** No instance has the identifier, the idempotency key, or for its definition the business key of `i`. */
  predicate HasNewKeys(db: Database, i: Instance) {
    && i.id !in db.instances
    && forall id | id in db.instances && db.instances[id].tenantId == i.tenantId ::
         && (db.instances[id].idempotencyKey == i.idempotencyKey ==> db.instances[id].applicationId != i.applicationId)
         && (db.instances[id].businessKey == i.businessKey ==> db.instances[id].definitionId != i.definitionId)
  }

  /** Instance `i` is stored as it was given, and a run of the revision it pins is requested for it. */
  predicate IsStart(db: Database, later: Database, i: Instance) {
    && (i.definitionId, i.definitionRevision) in db.revisions
    && var r := db.revisions[(i.definitionId, i.definitionRevision)];
       later == db.(
         instances := db.instances[i.id := i],
         outbox := db.outbox + [
           StartRequested(i, Definition(i.definitionId, i.tenantId, i.applicationId, r.key, r.name, r.description,
                                        Published, i.definitionRevision, r.nodes, r.edges, 1))])
  }

  /**
   A start succeeds if and only if its keys are new.  It stores the given instance, running, with the starter and the
   variables it was given, and requests that the pinned revision be run for exactly this instance.
   */
  lemma LaunchLaw(isJson: string -> bool, b: Behaviour, n: nat)
    requires Legal(isJson, b) && n < |b.steps| && b.steps[n].action.Launch?
    ensures var i, db := b.steps[n].action.instance, b.states[n].db;
            && (Succeeds(b, n) <==> b.steps[n].commits && HasNewKeys(db, i))
            && (Succeeds(b, n) ==> IsStart(db, b.states[n + 1].db, i))
            && i.status == Running && i.version == 1
  {
    StepFacts(isJson, b, n);
    LaunchEffect(isJson, b.steps[n].env, b.states[n], b.steps[n].action, b.steps[n].commits);
  }

  lemma LaunchEffect(isJson: string -> bool, env: Env, w: World, a: Action, commits: bool)
    requires DefinitionsOk(isJson, w) && a.Launch? && Admissible(env, w, a)
    ensures var i, later := a.instance, Run(w.db, a, commits);
            && (later != w.db <==> commits && HasNewKeys(w.db, i))
            && (later != w.db ==> IsStart(w.db, later, i))
  {
    assert Earlier(w, a.read);
    if Run(w.db, a, commits) == w.db && commits && a.instance.id !in w.db.instances {
      assert !InsertableInstance(w.db, a.instance);
    }
  }

  /** A cancellation succeeds if and only if the instance is running under the expected version. */
  lemma CancelLaw(isJson: string -> bool, b: Behaviour, n: nat)
    requires Legal(isJson, b) && n < |b.steps| && b.steps[n].action.Cancel?
    ensures var a, db := b.steps[n].action, b.states[n].db;
            && (Succeeds(b, n)
                <==>
                  && b.steps[n].commits && RunsFor(db, a.tenantId, a.applicationId, a.id)
                  && db.instances[a.id].version == a.expected)
            && (Succeeds(b, n) ==>
                  var row := db.instances[a.id].(status := Cancelled, errorMessage := Trim(a.reason),
                                                 finishedAt := Some(a.now), version := a.expected + 1);
                  b.states[n + 1].db == db.(
                    instances := db.instances[a.id := row],
                    outbox := db.outbox + [CancellationRequested(row, Trim(a.reason))]))
            && !AllSpace(a.reason)
  {
    StepFacts(isJson, b, n);
    BlankIs(b.steps[n].action.reason);
  }

  /** A finish succeeds if and only if the instance is running, and gives it the status and the result of the run. */
  lemma ConcludeLaw(isJson: string -> bool, b: Behaviour, n: nat)
    requires Legal(isJson, b) && n < |b.steps| && b.steps[n].action.Conclude?
    ensures var a, db := b.steps[n].action, b.states[n].db;
            && (Succeeds(b, n) <==> b.steps[n].commits && RunsFor(db, a.tenantId, a.applicationId, a.id))
            && (Succeeds(b, n) ==>
                  var was := db.instances[a.id];
                  var row := was.(status := a.status, result := a.result, errorMessage := a.message,
                                  finishedAt := Some(a.now), version := was.version + 1);
                  b.states[n + 1].db == db.(instances := db.instances[a.id := row],
                                            outbox := db.outbox + [StatusChanged(row, Running)]))
            && a.status in {InstanceStatus.Completed, Rejected, Failed}
  {
    StepFacts(isJson, b, n);
  }

  /** A move succeeds if and only if the instance is running elsewhere, and puts it at the node. */
  lemma MoveLaw(isJson: string -> bool, b: Behaviour, n: nat)
    requires Legal(isJson, b) && n < |b.steps| && b.steps[n].action.MoveTo?
    ensures var a, db := b.steps[n].action, b.states[n].db;
            && (Succeeds(b, n)
                <==>
                  && b.steps[n].commits && RunsFor(db, a.tenantId, a.applicationId, a.id)
                  && db.instances[a.id].currentNodeId != a.nodeId)
            && (Succeeds(b, n) ==>
                  var was := db.instances[a.id];
                  b.states[n + 1].db == db.(
                    instances := db.instances[a.id :=
                      was.(currentNodeId := a.nodeId, version := was.version + 1)]))
  {
    StepFacts(isJson, b, n);
    var a, db := b.steps[n].action, b.states[n].db;
    if a.id in db.instances {
      assert db.instances[a.id := db.instances[a.id]] == db.instances;
    }
  }

  // ---------- tasks ----------

  /**
   The creation of a task succeeds if and only if the instance is running and has no task for the node, and the row can
   be stored; it moves the instance to the node and announces the task.
   */
  lemma NewTaskLaw(isJson: string -> bool, b: Behaviour, n: nat)
    requires Legal(isJson, b) && n < |b.steps| && b.steps[n].action.NewTask?
    ensures var t, db := b.steps[n].action.task, b.states[n].db;
            && (Succeeds(b, n)
                <==>
                  && b.steps[n].commits && RunsFor(db, t.tenantId, t.applicationId, t.instanceId)
                  && t.id !in db.tasks && !t.assigneeType.OtherAssignee?
                  && forall id | id in db.tasks && db.tasks[id].instanceId == t.instanceId ::
                       db.tasks[id].nodeId != t.nodeId)
            && (Succeeds(b, n) ==>
                  && var was := db.instances[t.instanceId];
                     b.states[n + 1].db == db.(
                       instances := db.instances[t.instanceId :=
                         was.(currentNodeId := t.nodeId,
                              version := was.version + (if was.currentNodeId == t.nodeId then 0 else 1))],
                       tasks := db.tasks[t.id := t], outbox := db.outbox + [TaskCreated(t)]))
  {
    StepFacts(isJson, b, n);
    NewTaskEffect(b.states[n], b.steps[n].action.task, b.steps[n].commits);
  }

  lemma NewTaskEffect(w: World, t: Task, commits: bool)
    requires TasksOk(w) && t.version == 1
    ensures var later := Run(w.db, NewTask(t), commits);
            && (later != w.db
                <==>
                  && commits && RunsFor(w.db, t.tenantId, t.applicationId, t.instanceId)
                  && t.id !in w.db.tasks && !t.assigneeType.OtherAssignee?
                  && forall id | id in w.db.tasks && w.db.tasks[id].instanceId == t.instanceId ::
                       w.db.tasks[id].nodeId != t.nodeId)
            && (later != w.db ==>
                  && var was := w.db.instances[t.instanceId];
                     later == w.db.(
                       instances := w.db.instances[t.instanceId :=
                         was.(currentNodeId := t.nodeId,
                              version := was.version + (if was.currentNodeId == t.nodeId then 0 else 1))],
                       tasks := w.db.tasks[t.id := t], outbox := w.db.outbox + [TaskCreated(t)]))
  {
    if RunsFor(w.db, t.tenantId, t.applicationId, t.instanceId) && HasTask(w.db, t) {
      var id :| id in w.db.tasks
        && IsTaskOf(w.db.tasks[id], t.tenantId, t.applicationId, t.instanceId, t.nodeId);
      assert w.db.tasks[id].nodeId == t.nodeId;
    }
  }

  /** Retention deletes only history rows of instances that had ended before its cutoff, and touches nothing else. */
  lemma PurgeLaw(isJson: string -> bool, b: Behaviour, n: nat)
    requires Legal(isJson, b) && n < |b.steps| && b.steps[n].action.Purge?
    ensures var a, db := b.steps[n].action, b.states[n].db;
            && b.states[n + 1].db == (if b.steps[n].commits then db.(history := db.history - a.ids) else db)
            && forall id | id in a.ids ::
                 && id in db.history && db.history[id].instanceId in db.instances
                 && var i := db.instances[db.history[id].instanceId];
                    i.status != Running && i.finishedAt.Some? && i.finishedAt.value < a.before
  {
    StepFacts(isJson, b, n);
  }
}
