/** Every action keeps the invariants of `Ledger`. */
module LedgerProofs {
  import opened Text
  import opened Model
  import opened Validation
  import opened Tables
  import opened Service
  import opened Ledger

  // ---------- tasks ----------

  /** Equal version means equal row: a compare-and-set on the version acts on exactly the row that was read. */
  lemma ReadIsCurrent(w: World, t: Task)
    requires TasksOk(w) && t in w.seenTasks && t.id in w.db.tasks && t.version == w.db.tasks[t.id].version
    ensures t == w.db.tasks[t.id]
  {
    assert SameVersion(t, w.db.tasks[t.id]);
  }

  lemma TaskReplaced(w: World, w': World, row: Task)
    requires TasksOk(w) && row.id in w.db.tasks && w'.db.tasks == w.db.tasks[row.id := row]
             && w'.db.instances == w.db.instances
    requires w'.seenTasks == w.seenTasks + {row}
    requires SameIdentity(w.db.tasks[row.id], row) && row.version == w.db.tasks[row.id].version + 1
             && TaskOk(w'.db, row)
    ensures TasksOk(w')
  {
    var old' := w.db.tasks[row.id];
    forall id | id in w'.db.tasks ensures TaskOk(w'.db, w'.db.tasks[id]) {
      assert TaskOk(w.db, w.db.tasks[id]);
    }
    forall j, k | j in w'.db.tasks && k in w'.db.tasks && j != k ensures !SameSlot(w'.db.tasks[j], w'.db.tasks[k]) {
      assert !SameSlot(w.db.tasks[j], w.db.tasks[k]);
    }
    SeenGrows(w, w', row);
  }

  lemma TaskAdded(w: World, w': World, row: Task)
    requires TasksOk(w) && row.id !in w.db.tasks && w'.db.tasks == w.db.tasks[row.id := row]
    requires w'.seenTasks == w.seenTasks + {row}
    requires forall id | id in w.db.instances ::
             id in w'.db.instances && SameLaunch(w.db.instances[id], w'.db.instances[id])
    requires TaskOk(w'.db, row)
    requires forall k | k in w.db.tasks :: !SameSlot(w.db.tasks[k], row) && !SameSlot(row, w.db.tasks[k])
    ensures TasksOk(w')
  {
    forall id | id in w'.db.tasks ensures TaskOk(w'.db, w'.db.tasks[id]) {
      assert id != row.id ==> TaskOk(w.db, w.db.tasks[id]);
    }
    forall j, k | j in w'.db.tasks && k in w'.db.tasks && j != k ensures !SameSlot(w'.db.tasks[j], w'.db.tasks[k]) {
      assert j != row.id && k != row.id ==> !SameSlot(w.db.tasks[j], w.db.tasks[k]);
    }
    SeenGrows(w, w', row);
  }

  /** The stored rows stay versions of the current ones when one row is added or raised. */
  lemma SeenGrows(w: World, w': World, row: Task)
    requires TasksOk(w) && w'.db.tasks == w.db.tasks[row.id := row] && w'.seenTasks == w.seenTasks + {row}
    requires row.id in w.db.tasks ==> SameIdentity(w.db.tasks[row.id], row) && row.version > w.db.tasks[row.id].version
    ensures forall t {:trigger Past(w', t)} | t in w'.seenTasks :: Past(w', t)
    ensures forall s, t {:trigger SameVersion(s, t)} | s in w'.seenTasks && t in w'.seenTasks && SameVersion(s, t) ::
            s == t
  {
    forall t | t in w'.seenTasks ensures Past(w', t) {
      assert t in w.seenTasks ==> Past(w, t);
    }
    forall s, t | s in w'.seenTasks && t in w'.seenTasks && SameVersion(s, t) ensures s == t {
      assert s in w.seenTasks ==> Past(w, s);
      assert t in w.seenTasks ==> Past(w, t);
    }
  }

  lemma TasksUntouched(w: World, w': World)
    requires TasksOk(w) && w'.db.tasks == w.db.tasks && w'.seenTasks == w.seenTasks
    requires forall id | id in w.db.instances ::
             id in w'.db.instances && SameLaunch(w.db.instances[id], w'.db.instances[id])
    ensures TasksOk(w')
  {
    forall t | t in w'.seenTasks ensures Past(w', t) {
      assert Past(w, t);
    }
    forall id | id in w'.db.tasks ensures TaskOk(w'.db, w'.db.tasks[id]) {
      assert TaskOk(w.db, w.db.tasks[id]);
    }
  }

  // ---------- evolution ----------

  /** The actions on instances. */
  predicate MovesInstance(a: Action) {
    a.Launch? || a.Cancel? || a.NewTask? || a.MoveTo? || a.Conclude?
  }

  lemma InstancesEvolve(w: World, a: Action, commits: bool)
    requires InstancesOk(w)
    ensures var later := Run(w.db, a, commits);
            forall id | id in w.db.instances ::
              id in later.instances && InstanceEvolves(w.db.instances[id], later.instances[id])
  {
    if !MovesInstance(a) {
      assert Run(w.db, a, commits).instances == w.db.instances;
    }
  }

  lemma TasksEvolve(env: Env, w: World, a: Action, commits: bool)
    requires TasksOk(w) && Admissible(env, w, a)
    ensures var later := Run(w.db, a, commits);
            forall id | id in w.db.tasks :: id in later.tasks && TaskEvolves(w.db.tasks[id], later.tasks[id])
  {
    if a.Complete? {
      CompletionEvolves(env, w, a, commits);
    } else if a.NewTask? {
      CreationEvolves(w, a, commits);
    } else if a.Claim? || a.Delegate? {
      ReassignmentEvolves(env, w, a, commits);
    } else {
      OthersKeepTasks(w, a, commits);
    }
  }

  lemma CreationEvolves(w: World, a: Action, commits: bool)
    requires a.NewTask?
    ensures var later := Run(w.db, a, commits);
            forall id | id in w.db.tasks :: id in later.tasks && TaskEvolves(w.db.tasks[id], later.tasks[id])
  {
  }

  lemma ReassignmentEvolves(env: Env, w: World, a: Action, commits: bool)
    requires TasksOk(w) && Admissible(env, w, a) && (a.Claim? || a.Delegate?)
    ensures var later := Run(w.db, a, commits);
            forall id | id in w.db.tasks :: id in later.tasks && TaskEvolves(w.db.tasks[id], later.tasks[id])
  {
  }

  lemma CompletionEvolves(env: Env, w: World, a: Action, commits: bool)
    requires TasksOk(w) && Admissible(env, w, a) && a.Complete?
    ensures var later := Run(w.db, a, commits);
            forall id | id in w.db.tasks :: id in later.tasks && TaskEvolves(w.db.tasks[id], later.tasks[id])
  {
  }

  lemma DefinitionsEvolve(w: World, a: Action, commits: bool)
    ensures var later := Run(w.db, a, commits);
            forall id | id in w.db.definitions ::
              id in later.definitions && DefinitionEvolves(w.db.definitions[id], later.definitions[id])
  {
    if !(a.Create? || a.Update? || a.Publish? || a.Disable?) {
      assert Run(w.db, a, commits).definitions == w.db.definitions;
    }
  }

  lemma RevisionsEvolve(w: World, a: Action, commits: bool)
    ensures var later := Run(w.db, a, commits);
            (forall k | k in w.db.revisions :: k in later.revisions && later.revisions[k] == w.db.revisions[k])
  {
  }

  /** No action takes back a revision, an instance's launch, an ending, a decision or an event. */
  lemma ActionEvolves(env: Env, w: World, a: Action, commits: bool)
    requires InstancesOk(w) && TasksOk(w) && Admissible(env, w, a)
    ensures Evolves(w.db, Run(w.db, a, commits))
  {
    DefinitionsEvolve(w, a, commits);
    InstancesEvolve(w, a, commits);
    TasksEvolve(env, w, a, commits);
    RevisionsEvolve(w, a, commits);
    OutboxEvolves(w, a, commits);
  }

  lemma OutboxEvolves(w: World, a: Action, commits: bool)
    ensures w.db.outbox <= Run(w.db, a, commits).outbox
  {
  }

  lemma OthersKeepTasks(w: World, a: Action, commits: bool)
    requires !(a.NewTask? || a.Claim? || a.Complete? || a.Delegate?)
    ensures Next(w, a, commits).db.tasks == w.db.tasks && Next(w, a, commits).seenTasks == w.seenTasks
  {
  }

  lemma KeepsTasks(env: Env, w: World, a: Action, commits: bool)
    requires InstancesOk(w) && TasksOk(w) && Admissible(env, w, a)
    ensures TasksOk(Next(w, a, commits))
  {
    InstancesEvolve(w, a, commits);
    if a.NewTask? || a.Claim? || a.Complete? || a.Delegate? {
      TaskActionKeepsTasks(env, w, a, commits);
    } else {
      OthersKeepTasks(w, a, commits);
      TasksUntouched(w, Next(w, a, commits));
    }
  }

  lemma TaskActionKeepsTasks(env: Env, w: World, a: Action, commits: bool)
    requires InstancesOk(w) && TasksOk(w) && Admissible(env, w, a)
    requires a.NewTask? || a.Claim? || a.Complete? || a.Delegate?
    ensures TasksOk(Next(w, a, commits))
  {
    InstancesEvolve(w, a, commits);
    var w' := Next(w, a, commits);
    if w'.db == w.db {
      assert w'.seenTasks == w.seenTasks;
      TasksUntouched(w, w');
    } else if a.NewTask? {
      TaskAdded(w, w', a.task);
    } else {
      OperationKeepsTasks(env, w, a, commits);
    }
  }

  lemma OperationKeepsTasks(env: Env, w: World, a: Action, commits: bool)
    requires TasksOk(w) && Admissible(env, w, a) && (a.Claim? || a.Complete? || a.Delegate?)
    requires Next(w, a, commits).db != w.db
    ensures TasksOk(Next(w, a, commits))
  {
    var w' := Next(w, a, commits);
    assert TaskOk(w.db, w.db.tasks[a.task.id]);
    ReadIsCurrent(w, a.task);
    TaskReplaced(w, w', w'.db.tasks[a.task.id]);
  }

  // ---------- definitions ----------

  lemma TrimKeepsValid(env: Env, key: string, name: string, nodes: seq<Node>, edges: seq<Edge>)
    requires ValidDefinition(env.isJson, key, name, nodes, edges)
    ensures ValidDefinition(env.isJson, key, Trim(name), nodes, edges)
  {
    TrimIdempotent(name);
  }

  /** One row is stored: the stored rows stay earlier states, and every row stays valid. */
  lemma DefinitionStored(env: Env, w: World, w': World, row: Definition)
    requires DefinitionsOk(env.isJson, w) && w'.db.definitions == w.db.definitions[row.id := row]
    requires w'.seenDefinitions == w.seenDefinitions + {row} && DefinitionOk(env.isJson, row)
    requires row.id in w.db.definitions ==>
               var d := w.db.definitions[row.id];
               && d.key == row.key && d.tenantId == row.tenantId && d.applicationId == row.applicationId
               && (d.status != Draft ==> row.status != Draft)
    ensures forall d {:trigger Earlier(w', d)} | d in w'.seenDefinitions :: Earlier(w', d)
    ensures forall id {:trigger DefinitionOk(env.isJson, w'.db.definitions[id])} | id in w'.db.definitions ::
              DefinitionOk(env.isJson, w'.db.definitions[id])
  {
    forall d | d in w'.seenDefinitions ensures Earlier(w', d) {
      assert d in w.seenDefinitions ==> Earlier(w, d);
    }
    forall id | id in w'.db.definitions ensures DefinitionOk(env.isJson, w'.db.definitions[id]) {
      assert id != row.id ==> DefinitionOk(env.isJson, w.db.definitions[id]);
    }
  }

  lemma DefinitionAdded(env: Env, w: World, w': World, row: Definition)
    requires DefinitionsOk(env.isJson, w) && row.id !in w.db.definitions
             && w'.db.definitions == w.db.definitions[row.id := row]
    requires w'.db.revisions == w.db.revisions && w'.seenDefinitions == w.seenDefinitions + {row}
    requires DefinitionOk(env.isJson, row) && row.status == Draft
    ensures DefinitionsOk(env.isJson, w')
  {
    DefinitionStored(env, w, w', row);
    assert (row.id, 1) !in w.db.revisions;
  }

  /** A row changes without leaving its draft, or after publication without changing its content. */
  lemma DefinitionReplaced(env: Env, w: World, w': World, row: Definition)
    requires DefinitionsOk(env.isJson, w) && row.id in w.db.definitions
             && w'.db.definitions == w.db.definitions[row.id := row]
    requires w'.db.revisions == w.db.revisions && w'.seenDefinitions == w.seenDefinitions + {row}
             && DefinitionOk(env.isJson, row)
    requires var d := w.db.definitions[row.id];
             && d.key == row.key && d.tenantId == row.tenantId && d.applicationId == row.applicationId
             && (d.status == Draft <==> row.status == Draft)
             && (d.status != Draft ==> RevisionOf(d, 1) == RevisionOf(row, 1))
    ensures DefinitionsOk(env.isJson, w')
  {
    DefinitionStored(env, w, w', row);
  }

  lemma DefinitionPublishes(env: Env, w: World, w': World, row: Definition)
    requires DefinitionsOk(env.isJson, w) && row.id in w.db.definitions
             && w'.db.definitions == w.db.definitions[row.id := row]
    requires w.db.definitions[row.id].status == Draft && row.status == Published && DefinitionOk(env.isJson, row)
    requires RevisionOf(w.db.definitions[row.id], 1) == RevisionOf(row, 1)
    requires w'.db.revisions == w.db.revisions[(row.id, 1) := RevisionOf(row, 1)]
             && w'.seenDefinitions == w.seenDefinitions + {row}
    ensures DefinitionsOk(env.isJson, w')
  {
    DefinitionStored(env, w, w', row);
  }

  lemma DefinitionsUntouched(env: Env, w: World, w': World)
    requires DefinitionsOk(env.isJson, w) && w'.db.definitions == w.db.definitions && w'.db.revisions == w.db.revisions
    requires forall d | d in w'.seenDefinitions ::
             d in w.seenDefinitions || (d.id in w.db.definitions && d == w.db.definitions[d.id])
    ensures DefinitionsOk(env.isJson, w')
  {
    forall d | d in w'.seenDefinitions ensures Earlier(w', d) {
      if d in w.seenDefinitions {
        assert Earlier(w, d);
      } else {
        assert DefinitionOk(env.isJson, w.db.definitions[d.id]);
      }
    }
  }

  lemma KeepsDefinitions(env: Env, w: World, a: Action, commits: bool)
    requires DefinitionsOk(env.isJson, w) && Admissible(env, w, a)
    ensures DefinitionsOk(env.isJson, Next(w, a, commits))
  {
    if Next(w, a, commits).db == w.db || !(a.Create? || a.Update? || a.Publish? || a.Disable?) {
      OthersKeepDefinitions(env, w, a, commits);
    } else {
      match a
      case Create(_) => CreateKeepsDefinitions(env, w, a, commits);
      case Update(_, _, _, _, _, _) => UpdateKeepsDefinitions(env, w, a, commits);
      case Publish(_, _) => PublishKeepsDefinitions(env, w, a, commits);
      case Disable(_, _, _, _) => DisableKeepsDefinitions(env, w, a, commits);
    }
  }

  lemma OthersKeepDefinitions(env: Env, w: World, a: Action, commits: bool)
    requires DefinitionsOk(env.isJson, w)
    requires Next(w, a, commits).db == w.db || !(a.Create? || a.Update? || a.Publish? || a.Disable?)
    ensures DefinitionsOk(env.isJson, Next(w, a, commits))
  {
    DefinitionsUntouched(env, w, Next(w, a, commits));
  }

  lemma CreateKeepsDefinitions(env: Env, w: World, a: Action, commits: bool)
    requires DefinitionsOk(env.isJson, w) && Admissible(env, w, a) && a.Create? && Next(w, a, commits).db != w.db
    ensures DefinitionsOk(env.isJson, Next(w, a, commits))
  {
    var d := a.value;
    var name :| d.name == Trim(name) && ValidDefinition(env.isJson, d.key, name, d.nodes, d.edges);
    TrimKeepsValid(env, d.key, name, d.nodes, d.edges);
    DefinitionAdded(env, w, Next(w, a, commits), d);
  }

  lemma UpdateKeepsDefinitions(env: Env, w: World, a: Action, commits: bool)
    requires DefinitionsOk(env.isJson, w) && Admissible(env, w, a) && a.Update? && Next(w, a, commits).db != w.db
    ensures DefinitionsOk(env.isJson, Next(w, a, commits))
  {
    assert Earlier(w, a.read) && DefinitionOk(env.isJson, w.db.definitions[a.read.id]);
    TrimKeepsValid(env, a.read.key, a.name, a.nodes, a.edges);
    DefinitionReplaced(env, w, Next(w, a, commits), Next(w, a, commits).db.definitions[a.read.id]);
  }

  lemma PublishKeepsDefinitions(env: Env, w: World, a: Action, commits: bool)
    requires DefinitionsOk(env.isJson, w) && Admissible(env, w, a) && a.Publish? && Next(w, a, commits).db != w.db
    ensures DefinitionsOk(env.isJson, Next(w, a, commits))
  {
    assert DefinitionOk(env.isJson, w.db.definitions[a.read.id]);
    DefinitionPublishes(env, w, Next(w, a, commits), Next(w, a, commits).db.definitions[a.read.id]);
  }

  lemma DisableKeepsDefinitions(env: Env, w: World, a: Action, commits: bool)
    requires DefinitionsOk(env.isJson, w) && Admissible(env, w, a) && a.Disable? && Next(w, a, commits).db != w.db
    ensures DefinitionsOk(env.isJson, Next(w, a, commits))
  {
    assert DefinitionOk(env.isJson, w.db.definitions[a.id]);
    DefinitionReplaced(env, w, Next(w, a, commits), Next(w, a, commits).db.definitions[a.id]);
  }

  // ---------- instances ----------

  lemma InstanceReplaced(w: World, w': World, row: Instance)
    requires InstancesOk(w) && w'.db.instances == w.db.instances[row.id := row] && w'.db.revisions == w.db.revisions
             && InstanceOk(w.db, row)
    ensures InstancesOk(w')
  {
    forall id | id in w'.db.instances ensures InstanceOk(w'.db, w'.db.instances[id]) {
      assert id != row.id ==> InstanceOk(w.db, w.db.instances[id]);
    }
  }

  lemma InstancesUntouched(w: World, w': World)
    requires InstancesOk(w) && w'.db.instances == w.db.instances
    requires forall k | k in w.db.revisions :: k in w'.db.revisions && w'.db.revisions[k] == w.db.revisions[k]
    ensures InstancesOk(w')
  {
    forall id | id in w'.db.instances ensures InstanceOk(w'.db, w'.db.instances[id]) {
      assert InstanceOk(w.db, w.db.instances[id]);
    }
  }

  lemma KeepsInstances(env: Env, w: World, a: Action, commits: bool)
    requires InstancesOk(w) && Admissible(env, w, a)
    ensures InstancesOk(Next(w, a, commits))
  {
    var w' := Next(w, a, commits);
    if !MovesInstance(a) || w'.db == w.db {
      RevisionsEvolve(w, a, commits);
      InstancesUntouched(w, w');
    } else if a.Launch? {
      LaunchKeepsInstances(env, w, a, commits);
    } else if a.NewTask? {
      TaskKeepsInstances(w, a, commits);
    } else {
      StepKeepsInstances(env, w, a, commits);
    }
  }

  lemma LaunchKeepsInstances(env: Env, w: World, a: Action, commits: bool)
    requires InstancesOk(w) && Admissible(env, w, a) && a.Launch? && Next(w, a, commits).db != w.db
    ensures InstancesOk(Next(w, a, commits))
  {
    InstanceReplaced(w, Next(w, a, commits), a.instance);
  }

  lemma TaskKeepsInstances(w: World, a: Action, commits: bool)
    requires InstancesOk(w) && a.NewTask? && Next(w, a, commits).db != w.db
    ensures InstancesOk(Next(w, a, commits))
  {
    var w' := Next(w, a, commits);
    assert InstanceOk(w.db, w.db.instances[a.task.instanceId]);
    InstanceReplaced(w, w', w'.db.instances[a.task.instanceId]);
  }

  lemma StepKeepsInstances(env: Env, w: World, a: Action, commits: bool)
    requires InstancesOk(w) && Admissible(env, w, a) && (a.Cancel? || a.MoveTo? || a.Conclude?)
             && Next(w, a, commits).db != w.db
    ensures InstancesOk(Next(w, a, commits))
  {
    var w' := Next(w, a, commits);
    assert InstanceOk(w.db, w.db.instances[a.id]);
    InstanceReplaced(w, w', w'.db.instances[a.id]);
  }

  // ---------- history ----------

  lemma JournalUntouched(w: World, w': World)
    requires JournalOk(w) && w'.db.tasks == w.db.tasks && w'.journal == w.journal
    requires forall id | id in w'.db.history :: id in w.db.history && w'.db.history[id] == w.db.history[id]
    ensures JournalOk(w')
  {
    forall id | id in w'.db.tasks ensures Logged(w'.journal, w'.db.tasks[id]) {
      assert Logged(w.journal, w.db.tasks[id]);
    }
  }

  lemma JournalForNewTask(w: World, w': World, row: Task)
    requires JournalOk(w) && w'.db.tasks == w.db.tasks[row.id := row] && row.id !in w.db.tasks
    requires w'.journal == w.journal && w'.db.history == w.db.history && row.version == 1 && row.status == Pending
    ensures JournalOk(w')
  {
    assert RowsOf(w.journal, row.id) == [];
    forall id | id in w'.db.tasks ensures Logged(w'.journal, w'.db.tasks[id]) {
      assert id != row.id ==> Logged(w.journal, w.db.tasks[id]);
    }
  }

  /** One more row, for one more version of one task. */
  lemma JournalGrows(w: World, w': World, row: Task, written: HistoryRow)
    requires TasksOk(w) && JournalOk(w) && row.id in w.db.tasks && w'.db.tasks == w.db.tasks[row.id := row]
    requires w'.journal == w.journal + [written] && w'.db.history == w.db.history[written.id := written]
    requires row.version == w.db.tasks[row.id].version + 1
    requires written.taskId == row.id && written.fromStatus == w.db.tasks[row.id].status
             && written.toStatus == row.status
    ensures JournalOk(w')
  {
    assert w'.journal[..|w.journal|] == w.journal;
    assert forall id :: RowsOf(w'.journal, id) == RowsOf(w.journal, id) + (if id == row.id then [written] else []);
    forall id | id in w'.db.tasks ensures Logged(w'.journal, w'.db.tasks[id]) {
      assert Logged(w.journal, w.db.tasks[id]);
      var rows := RowsOf(w.journal, id);
      assert (rows + [written])[..|rows|] == rows;
      assert rows + [] == rows;
    }
    forall id | id !in w'.db.tasks ensures RowsOf(w'.journal, id) == [] {
      assert RowsOf(w.journal, id) == [];
    }
  }

  lemma OthersKeepJournal(w: World, a: Action, commits: bool)
    requires JournalOk(w) && (Next(w, a, commits).db == w.db || !(a.NewTask? || a.Claim? || a.Complete? || a.Delegate?))
    ensures JournalOk(Next(w, a, commits))
  {
    JournalUntouched(w, Next(w, a, commits));
  }

  lemma KeepsJournal(env: Env, w: World, a: Action, commits: bool)
    requires InstancesOk(w) && TasksOk(w) && JournalOk(w) && Admissible(env, w, a)
    ensures JournalOk(Next(w, a, commits))
  {
    var w' := Next(w, a, commits);
    if w'.db == w.db || !(a.NewTask? || a.Claim? || a.Complete? || a.Delegate?) {
      OthersKeepJournal(w, a, commits);
    } else if a.NewTask? {
      JournalForNewTask(w, w', a.task);
    } else {
      TaskActionKeepsJournal(env, w, a, commits);
    }
  }

  lemma TaskActionKeepsJournal(env: Env, w: World, a: Action, commits: bool)
    requires TasksOk(w) && JournalOk(w) && Admissible(env, w, a)
    requires (a.Claim? || a.Complete? || a.Delegate?) && Next(w, a, commits).db != w.db
    ensures JournalOk(Next(w, a, commits))
  {
    var w' := Next(w, a, commits);
    ReadIsCurrent(w, a.task);
    JournalGrows(w, w', w'.db.tasks[a.task.id], w'.db.history[a.historyId]);
  }

  // ---------- assignment ----------

  lemma HeldStays(w: World, w': World, t: Task)
    requires IsHeld(w, t) && w.seenTasks <= w'.seenTasks && RowsOf(w'.journal, t.id) == RowsOf(w.journal, t.id)
    ensures IsHeld(w', t)
  {
    var first :| BeganAs(w, t, first);
    assert BeganAs(w', t, first);
  }

  lemma HoldersUntouched(w: World, w': World)
    requires HoldersOk(w) && w'.db.tasks == w.db.tasks && w'.journal == w.journal && w.seenTasks <= w'.seenTasks
    ensures HoldersOk(w')
  {
    forall id | id in w'.db.tasks ensures IsHeld(w', w'.db.tasks[id]) {
      assert IsHeld(w, w.db.tasks[id]);
      HeldStays(w, w', w.db.tasks[id]);
    }
  }

  lemma HolderAdded(w: World, w': World, row: Task)
    requires HoldersOk(w) && JournalOk(w) && w'.db.tasks == w.db.tasks[row.id := row] && row.id !in w.db.tasks
    requires w'.journal == w.journal && w'.seenTasks == w.seenTasks + {row} && row.version == 1
    ensures HoldersOk(w')
  {
    assert RowsOf(w.journal, row.id) == [];
    assert BeganAs(w', row, row);
    forall id | id in w'.db.tasks ensures IsHeld(w', w'.db.tasks[id]) {
      if id != row.id {
        assert IsHeld(w, w.db.tasks[id]);
        HeldStays(w, w', w.db.tasks[id]);
      }
    }
  }

  /** One more history row, which assigns the task anew if it is a delegation. */
  lemma HolderMoved(w: World, w': World, row: Task, written: HistoryRow)
    requires HoldersOk(w) && TasksOk(w) && row.id in w.db.tasks && w'.db.tasks == w.db.tasks[row.id := row]
    requires w'.journal == w.journal + [written] && w.seenTasks <= w'.seenTasks && written.taskId == row.id
    requires SameIdentity(w.db.tasks[row.id], row)
    requires (row.assigneeType, row.assignee) ==
             if written.detail.DelegationDetail? then (User, written.detail.to)
             else (w.db.tasks[row.id].assigneeType, w.db.tasks[row.id].assignee)
    ensures HoldersOk(w')
  {
    assert w'.journal[..|w.journal|] == w.journal;
    var rows := RowsOf(w.journal, row.id);
    assert (rows + [written])[..|rows|] == rows;
    forall id | id in w'.db.tasks ensures IsHeld(w', w'.db.tasks[id]) {
      assert IsHeld(w, w.db.tasks[id]);
      if id == row.id {
        var first :| BeganAs(w, w.db.tasks[id], first);
        assert BeganAs(w', row, first);
      } else {
        var others := RowsOf(w.journal, id);
        assert others + [] == others;
        HeldStays(w, w', w.db.tasks[id]);
      }
    }
  }

  lemma KeepsHolders(env: Env, w: World, a: Action, commits: bool)
    requires InstancesOk(w) && TasksOk(w) && JournalOk(w) && HoldersOk(w) && Admissible(env, w, a)
    ensures HoldersOk(Next(w, a, commits))
  {
    var w' := Next(w, a, commits);
    if w'.db == w.db || !(a.NewTask? || a.Claim? || a.Complete? || a.Delegate?) {
      OthersKeepRows(w, a, commits);
      HoldersUntouched(w, w');
    } else if a.NewTask? {
      HolderAdded(w, w', a.task);
    } else {
      TaskActionKeepsHolders(env, w, a, commits);
    }
  }

  lemma OthersKeepRows(w: World, a: Action, commits: bool)
    requires Next(w, a, commits).db == w.db || !(a.NewTask? || a.Claim? || a.Complete? || a.Delegate?)
    ensures Next(w, a, commits).db.tasks == w.db.tasks && Next(w, a, commits).journal == w.journal
  {
  }

  lemma TaskActionKeepsHolders(env: Env, w: World, a: Action, commits: bool)
    requires TasksOk(w) && HoldersOk(w) && Admissible(env, w, a)
    requires (a.Claim? || a.Complete? || a.Delegate?) && Next(w, a, commits).db != w.db
    ensures HoldersOk(Next(w, a, commits))
  {
    var w' := Next(w, a, commits);
    ReadIsCurrent(w, a.task);
    HolderMoved(w, w', w'.db.tasks[a.task.id], w'.db.history[a.historyId]);
  }

  // ---------- outbox ----------

  lemma FaithfulStays(db: Database, later: Database, e: Event)
    requires Evolves(db, later) && Faithful(db, e)
    ensures Faithful(later, e)
  {
  }

  lemma OutboxGrows(w: World, w': World, e: Event)
    requires OutboxOk(w) && Evolves(w.db, w'.db) && w'.db.outbox == w.db.outbox + [e]
    requires !Holds(w.db, FactOf(e)) && Faithful(w'.db, e)
    requires forall f {:trigger Holds(w'.db, f)} :: Holds(w'.db, f) <==> Holds(w.db, f) || f == FactOf(e)
    ensures OutboxOk(w')
  {
    assert w'.db.outbox[..|w.db.outbox|] == w.db.outbox;
    forall f ensures Count(w'.db.outbox, f) == if Holds(w'.db, f) then 1 else 0 {
      assert Count(w.db.outbox, f) == if Holds(w.db, f) then 1 else 0;
    }
    forall x | x in w'.db.outbox ensures Faithful(w'.db, x) {
      if x in w.db.outbox {
        assert Faithful(w.db, x);
        FaithfulStays(w.db, w'.db, x);
      }
    }
  }

  lemma OutboxUntouched(w: World, w': World)
    requires OutboxOk(w) && Evolves(w.db, w'.db) && SameFacts(w.db, w'.db)
    ensures OutboxOk(w')
  {
    forall f ensures Holds(w'.db, f) <==> Holds(w.db, f) {
    }
    forall x | x in w'.db.outbox ensures Faithful(w'.db, x) {
      assert Faithful(w.db, x);
      FaithfulStays(w.db, w'.db, x);
    }
  }

  predicate IsSilent(a: Action) {
    a.Create? || a.Update? || a.Disable? || a.MoveTo? || a.Claim? || a.Delegate? || a.Purge?
  }

  /** The same revisions, instances with the same status, and tasks of which the same are decided. */
  predicate SameFacts(db: Database, later: Database) {
    && later.revisions == db.revisions && later.outbox == db.outbox
    && later.instances.Keys == db.instances.Keys && later.tasks.Keys == db.tasks.Keys
    && (forall id | id in db.instances :: later.instances[id].status == db.instances[id].status)
    && (forall id | id in db.tasks :: IsDecided(later.tasks[id]) == IsDecided(db.tasks[id]))
  }

  lemma SilentKeepsFacts(w: World, a: Action, commits: bool)
    requires IsSilent(a) || Next(w, a, commits).db == w.db
    ensures SameFacts(w.db, Next(w, a, commits).db)
  {
    if (a.Claim? || a.Delegate?) && Next(w, a, commits).db != w.db {
      OpenTaskKeepsFacts(w, a, commits);
    }
  }

  lemma OpenTaskKeepsFacts(w: World, a: Action, commits: bool)
    requires (a.Claim? || a.Delegate?) && Next(w, a, commits).db != w.db
    ensures SameFacts(w.db, Next(w, a, commits).db)
  {
  }

  lemma SilentKeepsOutbox(env: Env, w: World, a: Action, commits: bool)
    requires Inv(env.isJson, w) && Admissible(env, w, a) && (IsSilent(a) || Next(w, a, commits).db == w.db)
    ensures OutboxOk(Next(w, a, commits))
  {
    ActionEvolves(env, w, a, commits);
    SilentKeepsFacts(w, a, commits);
    OutboxUntouched(w, Next(w, a, commits));
  }

  lemma RevisionIsNewFact(db: Database, later: Database, id: string, revision: Revision)
    requires later.revisions == db.revisions[(id, 1) := revision] && later.instances == db.instances
             && later.tasks == db.tasks
    ensures forall f {:trigger Holds(later, f)} :: Holds(later, f) <==> Holds(db, f) || f == Revised(id, 1)
  {
  }

  lemma PublishWrites(db: Database, expected: nat, read: Definition, commits: bool)
    requires read.id in db.definitions && db.definitions[read.id].id == read.id
    requires db.definitions[read.id].status == Draft ==> db.definitions[read.id].publishedRevision == 0
    requires PublishDefinition(db, read.tenantId, read.applicationId, read.id, expected, commits).db != db
    ensures var row := db.definitions[read.id].(status := Published, publishedRevision := 1, version := expected + 1);
            && (read.id, 1) !in db.revisions
            && PublishDefinition(db, read.tenantId, read.applicationId, read.id, expected, commits).db
               == db.(definitions := db.definitions[row.id := row],
                      revisions := db.revisions[(row.id, 1) := RevisionOf(row, 1)],
                      outbox := db.outbox + [DefinitionPublished(row)])
  {
  }

  lemma DraftIsUnpublished(isJson: string -> bool, w: World, id: string)
    requires DefinitionsOk(isJson, w) && id in w.db.definitions
    ensures w.db.definitions[id].id == id
            && (w.db.definitions[id].status == Draft ==> w.db.definitions[id].publishedRevision == 0)
  {
    assert DefinitionOk(isJson, w.db.definitions[id]);
  }

  lemma PublishEvents(w: World, a: Action, commits: bool)
    requires a.Publish? && Next(w, a, commits).db != w.db
    requires OutboxOk(w) && Evolves(w.db, Next(w, a, commits).db)
    requires a.read.id in w.db.definitions && w.db.definitions[a.read.id].id == a.read.id
    requires w.db.definitions[a.read.id].status == Draft ==> w.db.definitions[a.read.id].publishedRevision == 0
    ensures OutboxOk(Next(w, a, commits))
  {
    PublishWrites(w.db, a.expected, a.read, commits);
    var row := w.db.definitions[a.read.id].(status := Published, publishedRevision := 1, version := a.expected + 1);
    RevisionAdded(w, Next(w, a, commits), row);
  }

  lemma RevisionAdded(w: World, w': World, row: Definition)
    requires OutboxOk(w) && Evolves(w.db, w'.db) && (row.id, 1) !in w.db.revisions && row.publishedRevision == 1
    requires w'.db == w.db.(definitions := w.db.definitions[row.id := row],
                            revisions := w.db.revisions[(row.id, 1) := RevisionOf(row, 1)],
                            outbox := w.db.outbox + [DefinitionPublished(row)])
    ensures OutboxOk(w')
  {
    RevisionIsNewFact(w.db, w'.db, row.id, RevisionOf(row, 1));
    OutboxGrows(w, w', DefinitionPublished(row));
  }

  lemma LaunchFacts(env: Env, w: World, a: Action, commits: bool)
    requires Admissible(env, w, a) && a.Launch? && Next(w, a, commits).db != w.db
    ensures var later := Next(w, a, commits).db;
            && !Holds(w.db, Started(a.instance.id))
            && forall f {:trigger Holds(later, f)} :: Holds(later, f) <==> Holds(w.db, f) || f == Started(a.instance.id)
  {
  }

  lemma LaunchEvents(env: Env, w: World, a: Action, commits: bool)
    requires Inv(env.isJson, w) && Admissible(env, w, a) && a.Launch? && Next(w, a, commits).db != w.db
    ensures OutboxOk(Next(w, a, commits))
  {
    ActionEvolves(env, w, a, commits);
    LaunchFacts(env, w, a, commits);
    var pinned := Pinned(w.db.revisions[(a.read.id, a.read.publishedRevision)]);
    OutboxGrows(w, Next(w, a, commits), StartRequested(a.instance, pinned));
  }

  /** The one fact that the ending of an instance adds. */
  function EndingFact(a: Action): Fact
    requires a.Cancel? || a.Conclude?
  {
    if a.Cancel? then WasCancelled(a.id) else WasFinished(a.id)
  }

  lemma EndingFacts(env: Env, w: World, a: Action, commits: bool)
    requires Admissible(env, w, a) && (a.Cancel? || a.Conclude?) && Next(w, a, commits).db != w.db
    ensures var later := Next(w, a, commits).db;
            && !Holds(w.db, EndingFact(a))
            && forall f {:trigger Holds(later, f)} :: Holds(later, f) <==> Holds(w.db, f) || f == EndingFact(a)
  {
  }

  lemma EndingEvents(env: Env, w: World, a: Action, commits: bool)
    requires Inv(env.isJson, w) && Admissible(env, w, a) && (a.Cancel? || a.Conclude?) && Next(w, a, commits).db != w.db
    ensures OutboxOk(Next(w, a, commits))
  {
    ActionEvolves(env, w, a, commits);
    EndingFacts(env, w, a, commits);
    var w' := Next(w, a, commits);
    var row := w'.db.instances[a.id];
    OutboxGrows(w, w', if a.Cancel? then CancellationRequested(row, Trim(a.reason)) else StatusChanged(row, Running));
  }

  lemma NewTaskFacts(w: World, a: Action, commits: bool)
    requires a.NewTask? && a.task.status == Pending && Next(w, a, commits).db != w.db
    ensures var later := Next(w, a, commits).db;
            && !Holds(w.db, Assigned(a.task.id))
            && forall f {:trigger Holds(later, f)} :: Holds(later, f) <==> Holds(w.db, f) || f == Assigned(a.task.id)
  {
  }

  lemma NewTaskEvents(env: Env, w: World, a: Action, commits: bool)
    requires Inv(env.isJson, w) && Admissible(env, w, a) && a.NewTask? && Next(w, a, commits).db != w.db
    ensures OutboxOk(Next(w, a, commits))
  {
    ActionEvolves(env, w, a, commits);
    NewTaskFacts(w, a, commits);
    OutboxGrows(w, Next(w, a, commits), TaskCreated(a.task));
  }

  lemma CompleteEvents(env: Env, w: World, a: Action, commits: bool)
    requires Inv(env.isJson, w) && Admissible(env, w, a) && a.Complete? && Next(w, a, commits).db != w.db
    ensures OutboxOk(Next(w, a, commits))
  {
    ActionEvolves(env, w, a, commits);
    ReadIsCurrent(w, a.task);
    OutboxGrows(w, Next(w, a, commits), TaskCompleted(Next(w, a, commits).db.tasks[a.task.id]));
  }

  lemma KeepsOutbox(env: Env, w: World, a: Action, commits: bool)
    requires Inv(env.isJson, w) && Admissible(env, w, a)
    ensures OutboxOk(Next(w, a, commits))
  {
    if IsSilent(a) || Next(w, a, commits).db == w.db {
      SilentKeepsOutbox(env, w, a, commits);
    } else {
      match a
      case Publish(_, read) =>
        ActionEvolves(env, w, a, commits);
        DraftIsUnpublished(env.isJson, w, read.id);
        PublishEvents(w, a, commits);
      case Launch(_, _) => LaunchEvents(env, w, a, commits);
      case Cancel(_, _, _, _, _, _) => EndingEvents(env, w, a, commits);
      case Conclude(_, _, _, _, _, _, _) => EndingEvents(env, w, a, commits);
      case NewTask(_) => NewTaskEvents(env, w, a, commits);
      case Complete(_, _, _, _, _, _, _) => CompleteEvents(env, w, a, commits);
    }
  }

  /** The invariant is kept by every action, whether its transaction commits or not. */
  lemma KeepsInv(env: Env, w: World, a: Action, commits: bool)
    requires Inv(env.isJson, w) && Admissible(env, w, a)
    ensures Inv(env.isJson, Next(w, a, commits))
  {
    KeepsDefinitions(env, w, a, commits);
    KeepsInstances(env, w, a, commits);
    KeepsTasks(env, w, a, commits);
    KeepsJournal(env, w, a, commits);
    KeepsHolders(env, w, a, commits);
    KeepsOutbox(env, w, a, commits);
  }
}
