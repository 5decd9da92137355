/**
 Laws of the database over whole behaviours: any interleaving of any number of service operations, each with a
 read that may be stale, an authorization answer of its own, and a transaction that commits or does not.
 */
module LedgerLaws {
  import opened Text
  import opened Model
  import opened Validation
  import opened Tables
  import opened Service
  import opened Ledger
  import opened LedgerProofs

  datatype Step = Step(env: Env, action: Action, commits: bool)

  /** `states[n]` is the state before step `n`. */
  datatype Behaviour = Behaviour(states: seq<World>, steps: seq<Step>)

  ghost predicate Allowed(isJson: string -> bool, b: Behaviour, n: nat)
    requires n < |b.steps| == |b.states| - 1
  {
    var Step(env, action, commits) := b.steps[n];
    env.isJson == isJson && Admissible(env, b.states[n], action)
      && b.states[n + 1] == Next(b.states[n], action, commits)
  }

  /** A behaviour from the empty database: roles and permissions may change from step to step. */
  ghost predicate Legal(isJson: string -> bool, b: Behaviour) {
    && |b.states| == |b.steps| + 1 && b.states[0] == Initial()
    && forall n: nat {:trigger Allowed(isJson, b, n)} | n < |b.steps| :: Allowed(isJson, b, n)
  }

  /** Step `n` changes the database. */
  predicate Succeeds(b: Behaviour, n: nat) {
    n < |b.steps| == |b.states| - 1 && b.states[n + 1].db != b.states[n].db
  }

  lemma {:induction false} Reachable(isJson: string -> bool, b: Behaviour, n: nat)
    requires Legal(isJson, b) && n <= |b.steps|
    ensures Inv(isJson, b.states[n])
  {
    if n > 0 {
      Reachable(isJson, b, n - 1);
      assert Allowed(isJson, b, n - 1);
      KeepsInv(b.steps[n - 1].env, b.states[n - 1], b.steps[n - 1].action, b.steps[n - 1].commits);
    }
  }

  lemma EvolvesOn(first: Database, second: Database, third: Database)
    requires Evolves(first, second) && Evolves(second, third)
    ensures Evolves(first, third)
  {
  }

  lemma StepRuns(isJson: string -> bool, b: Behaviour, n: nat)
    requires Legal(isJson, b) && n < |b.steps|
    ensures b.states[n + 1].db == Run(b.states[n].db, b.steps[n].action, b.steps[n].commits)
  {
    assert Allowed(isJson, b, n);
  }

  lemma StepEvolves(isJson: string -> bool, b: Behaviour, n: nat)
    requires Legal(isJson, b) && n < |b.steps|
    ensures Evolves(b.states[n].db, b.states[n + 1].db)
  {
    Reachable(isJson, b, n);
    assert Allowed(isJson, b, n);
    ActionEvolves(b.steps[n].env, b.states[n], b.steps[n].action, b.steps[n].commits);
  }

  /** What time never takes back holds between any two states of a behaviour. */
  lemma {:induction false} Onward(isJson: string -> bool, b: Behaviour, i: nat, j: nat)
    requires Legal(isJson, b) && i <= j <= |b.steps|
    ensures Evolves(b.states[i].db, b.states[j].db)
    decreases j
  {
    if i < j {
      Onward(isJson, b, i, j - 1);
      StepEvolves(isJson, b, j - 1);
      EvolvesOn(b.states[i].db, b.states[j - 1].db, b.states[j].db);
    }
  }

  // ---------- instances ----------

  function Endings(db: Database, id: string): nat {
    Count(db.outbox, WasCancelled(id)) + Count(db.outbox, WasFinished(id))
  }

  /**
   An instance leaves running at most once: a terminal row, its current node included, is frozen for good.
   Its finish time is set exactly then, and it has one ending event exactly then, however often finish is retried.
   */
  lemma InstanceLaw(isJson: string -> bool, b: Behaviour, i: nat, j: nat, id: string)
    requires Legal(isJson, b) && i <= j <= |b.steps| && id in b.states[i].db.instances
    ensures id in b.states[j].db.instances
    ensures var before, after := b.states[i].db.instances[id], b.states[j].db.instances[id];
            && (before.status != Running ==> after == before)
            && (after.finishedAt.Some? <==> after.status != Running)
            && Endings(b.states[j].db, id) == if after.status == Running then 0 else 1
  {
    Onward(isJson, b, i, j);
    Reachable(isJson, b, j);
    var w := b.states[j];
    assert InstanceOk(w.db, w.db.instances[id]);
    assert Count(w.db.outbox, WasCancelled(id)) == if Holds(w.db, WasCancelled(id)) then 1 else 0;
    assert Count(w.db.outbox, WasFinished(id)) == if Holds(w.db, WasFinished(id)) then 1 else 0;
  }

  /** Once an instance has ended, no step adds a task row for it. */
  lemma {:induction false} EndedTakesNoTask(isJson: string -> bool, b: Behaviour, i: nat, j: nat, id: string)
    requires Legal(isJson, b) && i <= j <= |b.steps|
    requires id in b.states[i].db.instances && b.states[i].db.instances[id].status != Running
    ensures forall t | t in b.states[j].db.tasks && b.states[j].db.tasks[t].instanceId == id ::
            t in b.states[i].db.tasks
    decreases j
  {
    if i < j {
      EndedTakesNoTask(isJson, b, i, j - 1, id);
      Onward(isJson, b, i, j - 1);
      TasksNeedRunning(b.states[j - 1].db, b.steps[j - 1].action, b.steps[j - 1].commits, id);
      StepRuns(isJson, b, j - 1);
    }
  }

  lemma TasksNeedRunning(db: Database, a: Action, commits: bool, id: string)
    requires id in db.instances && db.instances[id].status != Running
    ensures var later := Run(db, a, commits);
            forall t | t in later.tasks && later.tasks[t].instanceId == id ::
              t in db.tasks && db.tasks[t].instanceId == id
  {
    if !(a.NewTask? || IsTaskOperation(a)) {
      assert Run(db, a, commits).tasks == db.tasks;
    }
  }

  // ---------- definitions ----------

  function RevisionsOf(db: Database, id: string): set<(string, nat)> {
    set k | k in db.revisions && k.0 == id
  }

  ghost predicate SoundDefinition(isJson: string -> bool, db: Database, d: Definition) {
    && ValidRow(isJson, d)
    && d.publishedRevision == |RevisionsOf(db, d.id)| && (d.publishedRevision == 0 <==> d.status == Draft)
  }

  ghost predicate SoundRevision(isJson: string -> bool, r: Revision) {
    ValidDefinition(isJson, r.key, r.name, r.nodes, r.edges)
  }

  /**
   Every stored definition and revision is valid, although publication validates a read that may be older than
   the version it publishes; the published revision counts the revision rows, and is 0 exactly for a draft.
   */
  lemma DefinitionLaw(isJson: string -> bool, b: Behaviour, n: nat)
    requires Legal(isJson, b) && n <= |b.steps|
    ensures forall id {:trigger b.states[n].db.definitions[id]} | id in b.states[n].db.definitions ::
              b.states[n].db.definitions[id].id == id
                && SoundDefinition(isJson, b.states[n].db, b.states[n].db.definitions[id])
    ensures forall k {:trigger b.states[n].db.revisions[k]} | k in b.states[n].db.revisions ::
              SoundRevision(isJson, b.states[n].db.revisions[k])
  {
    Reachable(isJson, b, n);
    var w := b.states[n];
    forall id | id in w.db.definitions ensures w.db.definitions[id].id == id
      && SoundDefinition(isJson, w.db, w.db.definitions[id])
    {
      RevisionCount(isJson, w, id);
    }
    forall k | k in w.db.revisions ensures SoundRevision(isJson, w.db.revisions[k]) {
      PublishedIsValid(isJson, w, k);
    }
  }

  lemma RevisionCount(isJson: string -> bool, w: World, id: string)
    requires DefinitionsOk(isJson, w) && id in w.db.definitions
    ensures w.db.definitions[id].id == id && SoundDefinition(isJson, w.db, w.db.definitions[id])
  {
    var d := w.db.definitions[id];
    assert DefinitionOk(isJson, d);
    var one: nat := 1;
    assert RevisionsOf(w.db, id) == if d.status == Draft then {} else {(id, one)};
  }

  lemma PublishedIsValid(isJson: string -> bool, w: World, k: (string, nat))
    requires DefinitionsOk(isJson, w) && k in w.db.revisions
    ensures SoundRevision(isJson, w.db.revisions[k])
  {
    assert DefinitionOk(isJson, w.db.definitions[k.0]);
  }

  /** An instance pins a revision that never changes, and its one start event carries that revision. */
  lemma PinLaw(isJson: string -> bool, b: Behaviour, i: nat, j: nat, id: string)
    returns (p: nat)
    requires Legal(isJson, b) && i <= j <= |b.steps| && id in b.states[i].db.instances
    ensures var before, after := b.states[i].db, b.states[j].db;
            var pin := (before.instances[id].definitionId, before.instances[id].definitionRevision);
            && pin in before.revisions && pin in after.revisions && before.revisions[pin] == after.revisions[pin]
            && p < |after.outbox| && after.outbox[p].StartRequested? && after.outbox[p].started.id == id
            && after.outbox[p].definition == Pinned(before.revisions[pin])
            && SameLaunch(after.outbox[p].started, before.instances[id])
            && forall q | 0 <= q < |after.outbox| && after.outbox[q].StartRequested?
               && after.outbox[q].started.id == id :: q == p
  {
    Onward(isJson, b, i, j);
    Reachable(isJson, b, i);
    Reachable(isJson, b, j);
    var before, after := b.states[i].db, b.states[j].db;
    assert InstanceOk(before, before.instances[id]);
    p := EventFor(b.states[j], Started(id));
    assert Faithful(after, after.outbox[p]);
    forall q | 0 <= q < |after.outbox| && after.outbox[q].StartRequested?
      && after.outbox[q].started.id == id ensures q == p
    {
      EventIsUnique(b.states[j], q, p);
    }
  }

  // ---------- the outbox ----------

  lemma {:induction false} CountPositive(outbox: seq<Event>, f: Fact) returns (p: nat)
    requires Count(outbox, f) > 0
    ensures p < |outbox| && FactOf(outbox[p]) == f
  {
    p := |outbox| - 1;
    if FactOf(outbox[p]) != f {
      p := CountPositive(outbox[..p], f);
    }
  }

  lemma {:induction false} CountAtLeast(outbox: seq<Event>, p: nat)
    requires p < |outbox|
    ensures Count(outbox, FactOf(outbox[p])) >= 1
    ensures forall q | p < q < |outbox| && FactOf(outbox[q]) == FactOf(outbox[p]) ::
            Count(outbox, FactOf(outbox[p])) >= 2
  {
    if p < |outbox| - 1 {
      CountAtLeast(outbox[..|outbox| - 1], p);
    }
  }

  lemma EventFor(w: World, f: Fact) returns (p: nat)
    requires OutboxOk(w) && Holds(w.db, f)
    ensures p < |w.db.outbox| && FactOf(w.db.outbox[p]) == f
  {
    assert Count(w.db.outbox, f) == 1;
    p := CountPositive(w.db.outbox, f);
  }

  lemma EventIsUnique(w: World, p: nat, q: nat)
    requires OutboxOk(w) && p < |w.db.outbox| && q < |w.db.outbox| && FactOf(w.db.outbox[p]) == FactOf(w.db.outbox[q])
    ensures p == q
  {
    var f := FactOf(w.db.outbox[p]);
    assert Count(w.db.outbox, f) <= 1;
    CountAtLeast(w.db.outbox, if p < q then p else q);
  }

  /**
   Conservation: the outbox is in bijection with the committed facts (revisions, instances, cancelled instances,
   otherwise finished instances, tasks, decided tasks), and each event agrees with the row it is about.
   */
  lemma OutboxLaw(isJson: string -> bool, b: Behaviour, n: nat, f: Fact)
    requires Legal(isJson, b) && n <= |b.steps|
    ensures var db := b.states[n].db;
            && (Holds(db, f) <==> exists p :: 0 <= p < |db.outbox| && FactOf(db.outbox[p]) == f)
            && (forall p, q | 0 <= p < |db.outbox| && 0 <= q < |db.outbox|
               && FactOf(db.outbox[p]) == f == FactOf(db.outbox[q]) :: p == q)
            && (forall e | e in db.outbox :: Faithful(db, e))
  {
    Reachable(isJson, b, n);
    var w := b.states[n];
    if Holds(w.db, f) {
      var p := EventFor(w, f);
    }
    forall p | 0 <= p < |w.db.outbox| && FactOf(w.db.outbox[p]) == f ensures Holds(w.db, f) {
      CountAtLeast(w.db.outbox, p);
    }
    forall p, q | 0 <= p < |w.db.outbox| && 0 <= q < |w.db.outbox|
      && FactOf(w.db.outbox[p]) == f == FactOf(w.db.outbox[q])
      ensures p == q
    {
      EventIsUnique(w, p, q);
    }
  }

  // ---------- the task history ----------

  /** The rows lead from `first` to `last`, each from where the one before led. */
  predicate LeadsFrom(rows: seq<HistoryRow>, first: TaskStatus, last: TaskStatus) {
    && (forall k: nat | k < |rows| :: rows[k].fromStatus == Reached(rows, k, first))
    && last == Reached(rows, |rows|, first)
  }

  /** The status after the first `k` rows. */
  function Reached(rows: seq<HistoryRow>, k: nat, first: TaskStatus): TaskStatus
    requires k <= |rows|
  {
    if k == 0 then first else rows[k - 1].toStatus
  }

  lemma {:induction false} ChainLeads(rows: seq<HistoryRow>, first: TaskStatus, last: TaskStatus)
    requires Chain(rows, first, last)
    ensures LeadsFrom(rows, first, last)
  {
    if rows != [] {
      var front := rows[..|rows| - 1];
      ChainLeads(front, first, rows[|rows| - 1].fromStatus);
      forall k: nat | k < |rows| ensures rows[k].fromStatus == Reached(rows, k, first) {
        assert k < |front| ==> rows[k] == front[k];
        assert Reached(rows, k, first) == Reached(front, k, first);
      }
    }
  }

  /** Step `m` is the retention that deleted the row, whose instance had ended before the cutoff. */
  predicate PurgedAt(b: Behaviour, m: nat, row: HistoryRow) {
    && m < |b.steps| == |b.states| - 1 && b.steps[m].commits && b.steps[m].action.Purge?
    && row.id in b.steps[m].action.ids && row.id in b.states[m].db.history && b.states[m].db.history[row.id] == row
    && Expired(b.states[m].db, b.steps[m].action.before, row.id)
  }

  predicate IsStored(db: Database, row: HistoryRow) {
    row.id in db.history && db.history[row.id] == row
  }

  predicate IsKept(b: Behaviour, n: nat, row: HistoryRow)
    requires n < |b.states|
  {
    IsStored(b.states[n].db, row) || exists m: nat {:trigger PurgedAt(b, m, row)} :: m < n && PurgedAt(b, m, row)
  }

  /** Only retention deletes history rows, and nothing changes one. */
  lemma HistoryStays(db: Database, a: Action, commits: bool)
    ensures var later := Run(db, a, commits);
            forall h | h in db.history && !(a.Purge? && commits && h in a.ids) ::
              h in later.history && later.history[h] == db.history[h]
  {
  }

  lemma RowStaysKept(isJson: string -> bool, b: Behaviour, n: nat, row: HistoryRow)
    requires Legal(isJson, b) && n < |b.steps| && IsKept(b, n, row)
    ensures IsKept(b, n + 1, row)
  {
    if IsStored(b.states[n].db, row) && !IsStored(b.states[n + 1].db, row) {
      assert Allowed(isJson, b, n);
      HistoryStays(b.states[n].db, b.steps[n].action, b.steps[n].commits);
      assert PurgedAt(b, n, row);
    }
  }

  /** Every row ever written is stored until retention deletes it. */
  lemma {:induction false} RowsAreKept(isJson: string -> bool, b: Behaviour, n: nat, row: HistoryRow)
    requires Legal(isJson, b) && n <= |b.steps| && row in b.states[n].journal
    ensures IsKept(b, n, row)
  {
    if n > 0 {
      RecordLaw(isJson, b, n - 1);
      if row in b.states[n - 1].journal {
        RowsAreKept(isJson, b, n - 1, row);
        RowStaysKept(isJson, b, n - 1, row);
      } else {
        NewRowIsStored(isJson, b, n - 1);
      }
    }
  }

  lemma NewRowIsStored(isJson: string -> bool, b: Behaviour, n: nat)
    requires Legal(isJson, b) && n < |b.steps|
    ensures forall row | row in b.states[n + 1].journal && row !in b.states[n].journal ::
            IsStored(b.states[n + 1].db, row)
  {
    Reachable(isJson, b, n);
    assert Allowed(isJson, b, n);
    OperationIsRecorded(b.steps[n].env, b.states[n], b.steps[n].action, b.steps[n].commits);
  }

  /**
   The task history is a faithful log: `version - 1` rows were written for a task, which lead from pending to its
   status; each row ever written is stored unchanged until retention deletes it after the end of its instance, and no
   other row is stored.
   */
  lemma HistoryLaw(isJson: string -> bool, b: Behaviour, n: nat, id: string)
    requires Legal(isJson, b) && n <= |b.steps| && id in b.states[n].db.tasks
    ensures var w := b.states[n];
            var rows := RowsOf(w.journal, id);
            && |rows| == w.db.tasks[id].version - 1 && LeadsFrom(rows, Pending, w.db.tasks[id].status)
            && (forall row | row in w.journal :: IsKept(b, n, row))
            && (forall h | h in w.db.history :: w.db.history[h] in w.journal && w.db.history[h].id == h)
  {
    Reachable(isJson, b, n);
    var w := b.states[n];
    forall row | row in w.journal ensures IsKept(b, n, row) {
      RowsAreKept(isJson, b, n, row);
    }
    assert Logged(w.journal, w.db.tasks[id]);
    ChainLeads(RowsOf(w.journal, id), Pending, w.db.tasks[id].status);
  }

  // ---------- user operations on tasks ----------

  /** The row that records an operation: who did what, and from which status to which. */
  predicate Records(row: HistoryRow, a: Action)
    requires IsTaskOperation(a)
  {
    && row.id == a.historyId && row.tenantId == a.task.tenantId && row.applicationId == a.task.applicationId
    && row.taskId == a.task.id && row.instanceId == a.task.instanceId && row.actor == a.actor && row.createdAt == a.now
    && row.fromStatus == a.task.status && row.toStatus == Operated(a, a.task).status
    && match a
       case Claim(_, _, _, _) => row.action == ClaimAction
       case Complete(_, decision, comment, _, _, _, _) =>
         row.action == CompleteAction && row.detail == DecisionDetail(decision, Trim(comment))
       case Delegate(_, to, reason, _, _, _) =>
         row.action == DelegateAction && row.detail == DelegationDetail(Trim(to), Trim(reason))
  }

  /** Every successful operation is recorded by one row, and nothing else is. */
  lemma RecordLaw(isJson: string -> bool, b: Behaviour, n: nat)
    requires Legal(isJson, b) && n < |b.steps|
    ensures var a, before, after := b.steps[n].action, b.states[n], b.states[n + 1];
            if IsTaskOperation(a) && Succeeds(b, n) then
              |after.journal| == |before.journal| + 1
                && after.journal == before.journal + [after.journal[|before.journal|]]
              && Records(after.journal[|before.journal|], a)
            else after.journal == before.journal
  {
    Reachable(isJson, b, n);
    assert Allowed(isJson, b, n);
    OperationIsRecorded(b.steps[n].env, b.states[n], b.steps[n].action, b.steps[n].commits);
  }

  lemma OperationIsRecorded(env: Env, w: World, a: Action, commits: bool)
    requires TasksOk(w) && Admissible(env, w, a)
    ensures var later := Run(w.db, a, commits);
            if IsTaskOperation(a) && later != w.db then
              a.historyId in later.history && Written(w.db, later, a) == [later.history[a.historyId]]
                && Records(later.history[a.historyId], a)
            else Written(w.db, later, a) == []
  {
    if IsTaskOperation(a) && Run(w.db, a, commits) != w.db {
      ReadIsCurrent(w, a.task);
    }
  }

  predicate IsTaskOperation(a: Action) {
    a.Claim? || a.Complete? || a.Delegate?
  }

  /** What a successful operation of its actor makes of the row. */
  function Operated(a: Action, row: Task): Task
    requires IsTaskOperation(a)
  {
    var next := row.(version := row.version + 1);
    match a
    case Claim(_, actor, _, _) => next.(status := Claimed, claimedBy := actor)
    case Complete(_, decision, comment, output, _, _, now) =>
      next.(status := if decision == Approve then TaskApproved else TaskRejected,
            decision := decision, comment := Trim(comment),
            output := if AllSpace(output) then "{}" else output, completedAt := Some(now))
    case Delegate(_, to, _, _, _, _) =>
      next.(status := Pending, claimedBy := "", assigneeType := User, assignee := Trim(to))
  }

  /**
   Every successful claim, completion or delegation was authorized on exactly the row it replaced, although the
   row was read and authorized before the transaction, and replaces that row alone: the actor holds the claim, if there
   is one, and is the assignee, or has the role, or may act on the expression that the row is assigned to.
   */
  lemma AuthorisedLaw(isJson: string -> bool, b: Behaviour, n: nat)
    requires Legal(isJson, b) && Succeeds(b, n) && IsTaskOperation(b.steps[n].action)
    ensures var a, before, after := b.steps[n].action, b.states[n].db, b.states[n + 1].db;
            && a.task.id in before.tasks && a.task == before.tasks[a.task.id]
            && var row, env := before.tasks[a.task.id], b.steps[n].env;
            && row.claimedBy in {"", a.actor}
            && (row.assigneeType in {User, Starter} ==> row.assignee == a.actor)
            && (row.assigneeType == Role ==> env.holdsRole(a.actor, row.assignee))
            && (row.assigneeType == Expression ==> env.mayPerform(a.actor, row.assignee))
            && !row.assigneeType.OtherAssignee?
            && (if a.Claim? then a.task.status == Pending else !IsDecided(a.task))
            && after.tasks == before.tasks[a.task.id := Operated(a, a.task)]
  {
    Reachable(isJson, b, n);
    assert Allowed(isJson, b, n);
    OperationReplaces(b.steps[n].env, b.states[n], b.steps[n].action, b.steps[n].commits);
  }

  lemma OperationReplaces(env: Env, w: World, a: Action, commits: bool)
    requires TasksOk(w) && Admissible(env, w, a) && IsTaskOperation(a) && Run(w.db, a, commits) != w.db
    ensures a.task.id in w.db.tasks && a.task == w.db.tasks[a.task.id] && Authorized(env, a.actor, a.task)
    ensures if a.Claim? then a.task.status == Pending else !IsDecided(a.task)
    ensures Run(w.db, a, commits).tasks == w.db.tasks[a.task.id := Operated(a, a.task)]
  {
    ReadIsCurrent(w, a.task);
    if a.Complete? {
      BlankIs(a.output);
    }
  }

  /** Only operations on a task change its row. */
  lemma OthersKeepRow(db: Database, a: Action, commits: bool, id: string)
    requires id in db.tasks && !(IsTaskOperation(a) && a.task.id == id && Run(db, a, commits) != db)
    ensures var later := Run(db, a, commits); id in later.tasks && later.tasks[id] == db.tasks[id]
  {
  }

  /** Step `n` is a successful operation of `actor` on the task. */
  predicate OperatesAt(b: Behaviour, n: nat, id: string, actor: string) {
    && Succeeds(b, n) && IsTaskOperation(b.steps[n].action)
    && b.steps[n].action.task.id == id && b.steps[n].action.actor == actor
  }

  /** Until `owner`, who holds the claim, operates on the task with success, nobody else does, and the row stays. */
  lemma {:induction false} ClaimLaw(isJson: string -> bool, b: Behaviour, i: nat, j: nat, id: string, owner: string)
    requires Legal(isJson, b) && i <= j <= |b.steps| && id in b.states[i].db.tasks
    requires b.states[i].db.tasks[id].status == Claimed && b.states[i].db.tasks[id].claimedBy == owner
    requires forall n: nat | i <= n < j :: !OperatesAt(b, n, id, owner)
    ensures id in b.states[j].db.tasks && b.states[j].db.tasks[id] == b.states[i].db.tasks[id]
    decreases j
  {
    if i < j {
      ClaimLaw(isJson, b, i, j - 1, id, owner);
      ClaimStays(isJson, b, j - 1, id, owner);
    }
  }

  lemma ClaimStays(isJson: string -> bool, b: Behaviour, n: nat, id: string, owner: string)
    requires Legal(isJson, b) && n < |b.steps| && id in b.states[n].db.tasks
    requires b.states[n].db.tasks[id].status == Claimed && b.states[n].db.tasks[id].claimedBy == owner
    requires !OperatesAt(b, n, id, owner)
    ensures id in b.states[n + 1].db.tasks && b.states[n + 1].db.tasks[id] == b.states[n].db.tasks[id]
  {
    Reachable(isJson, b, n);
    assert Allowed(isJson, b, n);
    StepRuns(isJson, b, n);
    OthersCannotOperate(b.steps[n].env, b.states[n], b.steps[n].action, b.steps[n].commits, id, owner);
  }

  lemma OthersCannotOperate(env: Env, w: World, a: Action, commits: bool, id: string, owner: string)
    requires TasksOk(w) && Admissible(env, w, a) && id in w.db.tasks
    requires w.db.tasks[id].status == Claimed && w.db.tasks[id].claimedBy == owner
    requires !(IsTaskOperation(a) && a.task.id == id && a.actor == owner && Run(w.db, a, commits) != w.db)
    ensures var later := Run(w.db, a, commits); id in later.tasks && later.tasks[id] == w.db.tasks[id]
  {
    assert TaskOk(w.db, w.db.tasks[id]);
    if IsTaskOperation(a) && a.task.id == id && Run(w.db, a, commits) != w.db {
      OperationReplaces(env, w, a, commits);
    }
    OthersKeepRow(w.db, a, commits, id);
  }

  /** A task is completed at most once, and nothing happens to it afterwards. */
  lemma CompletionLaw(isJson: string -> bool, b: Behaviour, i: nat, j: nat)
    requires Legal(isJson, b) && i < j && Succeeds(b, i) && Succeeds(b, j)
    requires b.steps[i].action.Complete? && IsTaskOperation(b.steps[j].action)
    ensures b.steps[i].action.task.id != b.steps[j].action.task.id
  {
    AuthorisedLaw(isJson, b, i);
    AuthorisedLaw(isJson, b, j);
    Onward(isJson, b, i + 1, j);
    DecidedStays(b.states[i + 1].db, b.states[j].db, b.steps[i].action.task.id);
  }

  lemma DecidedStays(db: Database, later: Database, id: string)
    requires Evolves(db, later) && id in db.tasks && IsDecided(db.tasks[id])
    ensures id in later.tasks && later.tasks[id] == db.tasks[id]
  {
  }

  // ---------- optimistic locking ----------

  datatype Lock = NoLock | DefinitionLock(id: string, expected: nat) | InstanceLock(id: string, expected: nat)
    | TaskLock(id: string, expected: nat)

  /** The row and the version that an operation expects. */
  function LockOf(a: Action): Lock {
    match a
    case Update(_, _, _, _, expected, read) => DefinitionLock(read.id, expected)
    case Publish(expected, read) => DefinitionLock(read.id, expected)
    case Disable(_, _, id, expected) => DefinitionLock(id, expected)
    case Cancel(_, _, id, expected, _, _) => InstanceLock(id, expected)
    case Claim(task, _, _, _) => TaskLock(task.id, task.version)
    case Complete(task, _, _, _, _, _, _) => TaskLock(task.id, task.version)
    case Delegate(task, _, _, _, _, _) => TaskLock(task.id, task.version)
    case _ => NoLock
  }

  /** The row of a lock has the given version. */
  predicate HasVersion(db: Database, lock: Lock, version: nat) {
    match lock
    case NoLock => true
    case DefinitionLock(id, _) => id in db.definitions && db.definitions[id].version == version
    case InstanceLock(id, _) => id in db.instances && db.instances[id].version == version
    case TaskLock(id, _) => id in db.tasks && db.tasks[id].version == version
  }

  lemma LockIsChecked(db: Database, a: Action, commits: bool)
    requires !LockOf(a).NoLock? && Run(db, a, commits) != db
    ensures HasVersion(db, LockOf(a), LockOf(a).expected)
            && HasVersion(Run(db, a, commits), LockOf(a), LockOf(a).expected + 1)
  {
  }

  lemma VersionsRise(db: Database, later: Database, lock: Lock, v: nat, u: nat)
    requires Evolves(db, later) && !lock.NoLock? && HasVersion(db, lock, v) && HasVersion(later, lock, u)
    ensures v <= u
  {
  }

  /** Of two operations that expect the same version of the same row, at most one succeeds. */
  lemma LockLaw(isJson: string -> bool, b: Behaviour, i: nat, j: nat)
    requires Legal(isJson, b) && i < j < |b.steps| && Succeeds(b, i)
    requires LockOf(b.steps[i].action) == LockOf(b.steps[j].action) && !LockOf(b.steps[i].action).NoLock?
    ensures !Succeeds(b, j)
  {
    if Succeeds(b, j) {
      LockWasFree(isJson, b, i);
      LockWasFree(isJson, b, j);
      Onward(isJson, b, i + 1, j);
      var lock := LockOf(b.steps[i].action);
      VersionsRise(b.states[i + 1].db, b.states[j].db, lock, lock.expected + 1, lock.expected);
    }
  }

  /** A step that succeeds finds the version it expects, and leaves the next one. */
  lemma LockWasFree(isJson: string -> bool, b: Behaviour, n: nat)
    requires Legal(isJson, b) && Succeeds(b, n) && !LockOf(b.steps[n].action).NoLock?
    ensures var lock := LockOf(b.steps[n].action);
            HasVersion(b.states[n].db, lock, lock.expected) && HasVersion(b.states[n + 1].db, lock, lock.expected + 1)
  {
    StepRuns(isJson, b, n);
    LockIsChecked(b.states[n].db, b.steps[n].action, b.steps[n].commits);
  }

  // ---------- repeated task creation ----------

  predicate ForSlot(t: Task, instanceId: string, nodeId: string) {
    t.instanceId == instanceId && t.nodeId == nodeId
  }

  lemma SlotIsTaken(db: Database, t: Task, commits: bool, after: Database, later: Database, u: Task, alsoCommits: bool)
    requires after == Run(db, NewTask(t), commits) && Evolves(after, later) && after != db
    requires ForSlot(u, t.instanceId, t.nodeId)
    ensures Run(later, NewTask(u), alsoCommits) == later
  {
    assert t.id in after.tasks;
    assert t.id in later.tasks && SameIdentity(t, later.tasks[t.id]);
  }

  /**
   However many attempts with fresh identifiers are made to create the task of one instance and node, and
   whatever happens in between, only one changes anything.
   */
  lemma TaskCreationLaw(isJson: string -> bool, b: Behaviour, i: nat, j: nat)
    requires Legal(isJson, b) && i < j < |b.steps| && Succeeds(b, i)
    requires b.steps[i].action.NewTask? && b.steps[j].action.NewTask?
    requires ForSlot(b.steps[j].action.task, b.steps[i].action.task.instanceId, b.steps[i].action.task.nodeId)
    ensures !Succeeds(b, j)
  {
    StepRuns(isJson, b, i);
    StepRuns(isJson, b, j);
    Onward(isJson, b, i + 1, j);
    SlotIsTaken(b.states[i].db, b.steps[i].action.task, b.steps[i].commits, b.states[i + 1].db,
                b.states[j].db, b.steps[j].action.task, b.steps[j].commits);
  }

  predicate SlotTaken(db: Database, instanceId: string, nodeId: string) {
    exists t :: t in db.tasks && ForSlot(db.tasks[t], instanceId, nodeId)
  }

  /** The version of the instance is `v`, or one more with the task in place. */
  predicate RaisedOnce(db: Database, instanceId: string, nodeId: string, v: nat) {
    && instanceId in db.instances
    && (db.instances[instanceId].version == v
        || (db.instances[instanceId].version == v + 1 && SlotTaken(db, instanceId, nodeId)))
  }

  predicate ConcernsSlot(a: Action, instanceId: string, nodeId: string) {
    IsTaskOperation(a) || (a.NewTask? && ForSlot(a.task, instanceId, nodeId))
  }

  /** A creation moves its instance by at most one version, and then the task is there; a second one moves nothing. */
  lemma StepRaisesOnce(w: World, a: Action, commits: bool, instanceId: string, nodeId: string, v: nat)
    requires TasksOk(w) && ConcernsSlot(a, instanceId, nodeId) && RaisedOnce(w.db, instanceId, nodeId, v)
    ensures RaisedOnce(Run(w.db, a, commits), instanceId, nodeId, v)
  {
    if IsTaskOperation(a) {
      assert Run(w.db, a, commits).instances == w.db.instances;
      if SlotTaken(w.db, instanceId, nodeId) {
        OperationKeepsSlot(w, a, commits, instanceId, nodeId);
      }
    } else if Run(w.db, a, commits) != w.db {
      CreationTakesSlot(w, a, commits);
    }
  }

  lemma CreationTakesSlot(w: World, a: Action, commits: bool)
    requires a.NewTask? && Run(w.db, a, commits) != w.db
    ensures var later := Run(w.db, a, commits);
            && !SlotTaken(w.db, a.task.instanceId, a.task.nodeId) && SlotTaken(later, a.task.instanceId, a.task.nodeId)
            && later.instances.Keys == w.db.instances.Keys
            && forall id | id in w.db.instances ::
                 later.instances[id].version == w.db.instances[id].version
                 || (id == a.task.instanceId && later.instances[id].version == w.db.instances[id].version + 1)
  {
    assert ForSlot(Run(w.db, a, commits).tasks[a.task.id], a.task.instanceId, a.task.nodeId);
  }

  lemma OperationKeepsSlot(w: World, a: Action, commits: bool, instanceId: string, nodeId: string)
    requires IsTaskOperation(a) && SlotTaken(w.db, instanceId, nodeId)
    ensures SlotTaken(Run(w.db, a, commits), instanceId, nodeId)
  {
    var t :| t in w.db.tasks && ForSlot(w.db.tasks[t], instanceId, nodeId);
    assert ForSlot(Run(w.db, a, commits).tasks[t], instanceId, nodeId);
  }

  /**
   Any number of attempts to create the task of one instance and node, interleaved with any claims, delegations and
   completions, raise the version of the instance at most once, and only together with the task; at most one row is
   there in the end.
   */
  lemma TaskCreationRaisesOnce(isJson: string -> bool, b: Behaviour, i: nat, j: nat,
                                                  instanceId: string, nodeId: string)
    requires Legal(isJson, b) && i <= j <= |b.steps| && instanceId in b.states[i].db.instances
    requires forall n: nat | i <= n < j :: ConcernsSlot(b.steps[n].action, instanceId, nodeId)
    ensures RaisedOnce(b.states[j].db, instanceId, nodeId, b.states[i].db.instances[instanceId].version)
    ensures var tasks := b.states[j].db.tasks;
            forall s, t | s in tasks && t in tasks && ForSlot(tasks[s], instanceId, nodeId)
              && ForSlot(tasks[t], instanceId, nodeId) :: s == t
  {
    StepsRaiseOnce(isJson, b, i, j, instanceId, nodeId, b.states[i].db.instances[instanceId].version);
    Reachable(isJson, b, j);
    OneRowForSlot(b.states[j], instanceId, nodeId);
  }

  lemma {:induction false} StepsRaiseOnce(isJson: string -> bool, b: Behaviour, i: nat, j: nat, instanceId: string,
                                          nodeId: string, v: nat)
    requires Legal(isJson, b) && i <= j <= |b.steps| && RaisedOnce(b.states[i].db, instanceId, nodeId, v)
    requires forall n: nat | i <= n < j :: ConcernsSlot(b.steps[n].action, instanceId, nodeId)
    ensures RaisedOnce(b.states[j].db, instanceId, nodeId, v)
    decreases j
  {
    if i < j {
      StepsRaiseOnce(isJson, b, i, j - 1, instanceId, nodeId, v);
      Reachable(isJson, b, j - 1);
      StepRuns(isJson, b, j - 1);
      StepRaisesOnce(b.states[j - 1], b.steps[j - 1].action, b.steps[j - 1].commits, instanceId, nodeId, v);
    }
  }

  lemma OneRowForSlot(w: World, instanceId: string, nodeId: string)
    requires TasksOk(w)
    ensures var tasks := w.db.tasks;
            forall s, t | s in tasks && t in tasks && ForSlot(tasks[s], instanceId, nodeId)
              && ForSlot(tasks[t], instanceId, nodeId) :: s == t
  {
    var tasks := w.db.tasks;
    forall s, t | s in tasks && t in tasks && ForSlot(tasks[s], instanceId, nodeId)
      && ForSlot(tasks[t], instanceId, nodeId)
      ensures s == t
    {
      assert SameSlot(tasks[s], tasks[t]);
    }
  }

  /** An instance and node have a task-created event if and only if they have a task. */
  lemma SlotEventLaw(isJson: string -> bool, b: Behaviour, n: nat, instanceId: string, nodeId: string)
    requires Legal(isJson, b) && n <= |b.steps|
    ensures var db := b.states[n].db;
            SlotTaken(db, instanceId, nodeId)
            <==> exists p ::
                   && 0 <= p < |db.outbox| && db.outbox[p].TaskCreated?
                   && ForSlot(db.outbox[p].created, instanceId, nodeId)
  {
    Reachable(isJson, b, n);
    var w := b.states[n];
    if SlotTaken(w.db, instanceId, nodeId) {
      var t :| t in w.db.tasks && ForSlot(w.db.tasks[t], instanceId, nodeId);
      var p := EventFor(w, Assigned(t));
      assert Faithful(w.db, w.db.outbox[p]);
    }
    forall p | 0 <= p < |w.db.outbox| && w.db.outbox[p].TaskCreated?
      && ForSlot(w.db.outbox[p].created, instanceId, nodeId)
      ensures SlotTaken(w.db, instanceId, nodeId)
    {
      assert Faithful(w.db, w.db.outbox[p]);
      assert ForSlot(w.db.tasks[w.db.outbox[p].created.id], instanceId, nodeId);
    }
  }

  /** There is at most one row, and at most one task-created event, for an instance and node. */
  lemma TaskEventLaw(isJson: string -> bool, b: Behaviour, n: nat, p: nat, q: nat)
    requires Legal(isJson, b) && n <= |b.steps|
    requires var outbox := b.states[n].db.outbox;
             p < |outbox| && q < |outbox| && outbox[p].TaskCreated? && outbox[q].TaskCreated?
             && ForSlot(outbox[q].created, outbox[p].created.instanceId, outbox[p].created.nodeId)
    ensures p == q
  {
    Reachable(isJson, b, n);
    var w := b.states[n];
    var s, t := w.db.outbox[p].created, w.db.outbox[q].created;
    assert Faithful(w.db, w.db.outbox[p]) && Faithful(w.db, w.db.outbox[q]);
    assert SameSlot(w.db.tasks[s.id], w.db.tasks[t.id]);
    EventIsUnique(w, p, q);
  }
}
