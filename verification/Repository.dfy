/**
 The repository in its own shape (`internal/workflow/repository.go`): each method changes the tables and the outbox step
 by step inside a transaction, and a failure on the way rolls everything back.  `commits` says whether the parts outside
 the tables (building the event, adding it to the outbox, the commit) succeed.  Four methods read the row back after
 they have written it; `readsBack` says whether that read succeeds.
 */
module Repository {
  import opened Model
  import opened Tables
  import opened Retention
  import Validation

  predicate IsRunning(db: Database, tenantId: string, applicationId: string, id: string) {
    && id in db.instances && db.instances[id].tenantId == tenantId && db.instances[id].applicationId == applicationId
    && db.instances[id].status == Running
  }

  /** The history row belongs to an instance of its tenant that ended before the cutoff. */
  predicate HasEndedBefore(db: Database, before: int, id: string) {
    && id in db.history && db.history[id].instanceId in db.instances
    && var i := db.instances[db.history[id].instanceId];
       && i.tenantId == db.history[id].tenantId && i.status in {Completed, Rejected, Cancelled, Failed}
       && i.finishedAt.Some? && i.finishedAt.value < before
  }

  /** Row `i` was written before row `j`, or at the same time with the smaller identifier. */
  ghost predicate ComesFirst(history: map<string, HistoryRow>, i: string, j: string) {
    && i in history && j in history
    && (history[i].createdAt < history[j].createdAt
        || (history[i].createdAt == history[j].createdAt && (i == j || exists k: nat :: Validation.IsBelowAt(i, j, k))))
  }

  /**
   The rows `ids` of instances that had ended before the cutoff are gone, at most `limit` of them and the oldest ones;
   and no such row is left if there were fewer.
   */
  ghost predicate OldestAreGone(db: Database, later: Database, before: int, limit: nat, ids: set<string>) {
    && |ids| <= limit && later.history == db.history - ids
    && (forall id | id in ids :: HasEndedBefore(db, before, id))
    && (|ids| < limit ==> forall id | id in later.history :: !HasEndedBefore(later, before, id))
    && (forall i, j | i in ids && j in later.history && HasEndedBefore(later, before, j) ::
          ComesFirst(db.history, i, j))
  }

  lemma BatchIsOldest(db: Database, before: int, limit: nat, ids: set<string>)
    requires IsBatch(db, before, limit, ids)
    ensures OldestAreGone(db, PurgeHistory(db, ids), before, limit, ids)
  {
    var later := PurgeHistory(db, ids);
    assert forall id | id in db.history :: HasEndedBefore(db, before, id) <==> id in ExpiredIds(db, before);
    if |ids| < limit {
      Within(ExpiredIds(db, before), ids);
    }
    forall i, j | i in ids && j in later.history && HasEndedBefore(later, before, j)
      ensures ComesFirst(db.history, i, j)
    {
      assert HasEndedBefore(db, before, j) && IsOlder(db.history, i, j);
      Validation.AtMostIs(i, j);
    }
  }

  class Repository {
    var definitions: map<string, Definition>
    var revisions: map<(string, nat), Revision>
    var instances: map<string, Instance>
    var tasks: map<string, Task>
    var history: map<string, HistoryRow>
    var outbox: seq<Event>

    constructor ()
      ensures Contents() == Database(map[], map[], map[], map[], map[], [])
    {
      definitions, revisions, instances, tasks, history, outbox := map[], map[], map[], map[], map[], [];
    }

    function Contents(): (db: Database)
      reads this
    {
      Database(definitions, revisions, instances, tasks, history, outbox)
    }

    /** Undoes what the open transaction has done. */
    method Rollback(saved: Database)
      modifies this
      ensures Contents() == saved
    {
      definitions, revisions, instances := saved.definitions, saved.revisions, saved.instances;
      tasks, history, outbox := saved.tasks, saved.history, saved.outbox;
    }

    method CreateDefinition(value: Definition, commits: bool, readsBack: bool) returns (r: Result<Definition>)
      modifies this
      ensures Contents() == Tables.CreateDefinition(old(Contents()), value, commits).db
      ensures r.Ok? <==> commits && readsBack && IsNewDefinition(old(Contents()), value)
      ensures r.Ok? ==>
                && r.value == value.(version := 1)
                && Contents() == old(Contents()).(definitions := old(definitions)[value.id := r.value])
      ensures r.Err? && Contents() != old(Contents())
              <==> commits && IsNewDefinition(old(Contents()), value) && !readsBack
    {
      if !commits || !IsNewDefinition(Contents(), value) {
        return Err(StoreFailure);
      }
      definitions := definitions[value.id := value.(version := 1)];
      return if readsBack then Ok(definitions[value.id]) else Err(StoreFailure);
    }

    method UpdateDefinition(value: Definition, expected: nat, commits: bool, readsBack: bool)
      returns (r: Result<Definition>)
      modifies this
      ensures Contents() == Tables.UpdateDefinition(old(Contents()), value, expected, commits).db
      ensures var matches := Matches(old(Contents()), value.tenantId, value.applicationId, value.id, expected, Draft);
              && (r.Ok? <==> commits && matches && readsBack)
              && (r == Err(VersionConflict) <==> commits && !matches)
              && (r.Err? && Contents() != old(Contents()) <==> commits && matches && !readsBack)
      ensures r.Ok? ==>
                && r.value == old(definitions)[value.id].(name := value.name, description := value.description,
                                                          nodes := value.nodes, edges := value.edges,
                                                          version := expected + 1)
                && Contents() == old(Contents()).(definitions := old(definitions)[value.id := r.value])
    {
      if !commits {
        return Err(StoreFailure);
      }
      if !Matches(Contents(), value.tenantId, value.applicationId, value.id, expected, Draft) {
        return Err(VersionConflict);
      }
      var row := definitions[value.id];
      row := row.(name := value.name, description := value.description, nodes := value.nodes, edges := value.edges);
      definitions := definitions[value.id := row.(version := row.version + 1)];
      return if readsBack then Ok(definitions[value.id]) else Err(StoreFailure);
    }

    /** The revision row is written first, then the definition row, then the event. */
    method PublishDefinition(tenantId: string, applicationId: string, id: string, expected: nat, commits: bool)
      returns (r: Result<Definition>)
      modifies this
      ensures Tx(Contents(), r)
              == Tables.PublishDefinition(old(Contents()), tenantId, applicationId, id, expected, commits)
      ensures r.Ok? <==>
                && commits && Matches(old(Contents()), tenantId, applicationId, id, expected, Draft)
                && (id, old(definitions)[id].publishedRevision + 1) !in old(revisions)
      ensures r.Ok? ==>
                && var was := old(definitions)[id];
                   var next := was.publishedRevision + 1;
                   && r.value == was.(status := Published, publishedRevision := next, version := expected + 1)
                   && Contents() == old(Contents()).(
                        definitions := old(definitions)[id := r.value],
                        revisions := old(revisions)[(id, next) :=
                          Revision(was.id, next, was.tenantId, was.applicationId, was.key, was.name, was.description,
                                   was.nodes, was.edges)],
                        outbox := old(outbox) + [DefinitionPublished(r.value)])
      ensures r.Err? ==> Contents() == old(Contents())
    {
      var saved := Contents();
      if id !in definitions || !OwnedBy(definitions[id], tenantId, applicationId) {
        return Err(NotFound);
      }
      var current := definitions[id];
      if current.version != expected || current.status != Draft {
        return Err(VersionConflict);
      }
      var revision := current.publishedRevision + 1;
      if (id, revision) in revisions {
        return Err(StoreFailure);
      }
      revisions := revisions[(id, revision) := RevisionOf(current, revision)];
      current := current.(status := Published, publishedRevision := revision, version := current.version + 1);
      definitions := definitions[id := current];
      outbox := outbox + [DefinitionPublished(current)];
      if !commits {
        Rollback(saved);
        return Err(StoreFailure);
      }
      return Ok(current);
    }

    method DisableDefinition(tenantId: string, applicationId: string, id: string, expected: nat, commits: bool,
                             readsBack: bool) returns (r: Result<Definition>)
      modifies this
      ensures Contents() == Tables.DisableDefinition(old(Contents()), tenantId, applicationId, id, expected, commits).db
      ensures var matches := Matches(old(Contents()), tenantId, applicationId, id, expected, Published);
              && (r.Ok? <==> commits && matches && readsBack)
              && (r == Err(VersionConflict) <==> commits && !matches)
              && (r.Err? && Contents() != old(Contents()) <==> commits && matches && !readsBack)
      ensures r.Ok? ==>
                && r.value == old(definitions)[id].(status := Disabled, version := expected + 1)
                && Contents() == old(Contents()).(definitions := old(definitions)[id := r.value])
    {
      if !commits {
        return Err(StoreFailure);
      }
      if !Matches(Contents(), tenantId, applicationId, id, expected, Published) {
        return Err(VersionConflict);
      }
      definitions := definitions[id := definitions[id].(status := Disabled, version := definitions[id].version + 1)];
      return if readsBack then Ok(definitions[id]) else Err(StoreFailure);
    }

    method CreateInstance(value: Instance, definition: Definition, commits: bool) returns (r: Result<Instance>)
      modifies this
      ensures Tx(Contents(), r) == Tables.CreateInstance(old(Contents()), value, definition, commits)
      ensures r.Ok? <==> commits && InsertableInstance(old(Contents()), value)
      ensures r.Ok? ==>
                && r.value == value && value.id !in old(instances)
                && Contents() == old(Contents()).(
                     instances := old(instances)[value.id := value.(version := 1)],
                     outbox := old(outbox) + [StartRequested(value, definition)])
      ensures r.Err? ==> Contents() == old(Contents())
    {
      var saved := Contents();
      if !InsertableInstance(saved, value) {
        return Err(StoreFailure);
      }
      instances := instances[value.id := value.(version := 1)];
      outbox := outbox + [StartRequested(value, definition)];
      if !commits {
        Rollback(saved);
        return Err(StoreFailure);
      }
      return Ok(value);
    }

    /** The row is updated under its version and status, then read back for the event. */
    method CancelInstance(tenantId: string, applicationId: string, id: string, expected: nat, reason: string, now: int,
                          commits: bool)
      returns (r: Result<Instance>)
      modifies this
      ensures Tx(Contents(), r)
              == Tables.CancelInstance(old(Contents()), tenantId, applicationId, id, expected, reason, now, commits)
      ensures r.Ok? <==>
                && commits && IsRunning(old(Contents()), tenantId, applicationId, id)
                && old(instances)[id].version == expected
      ensures r.Ok? ==>
                && r.value == old(instances)[id].(status := Cancelled, errorMessage := reason, finishedAt := Some(now),
                                                  version := expected + 1)
                && Contents() == old(Contents()).(
                     instances := old(instances)[id := r.value],
                     outbox := old(outbox) + [CancellationRequested(r.value, reason)])
      ensures r.Err? ==> Contents() == old(Contents())
    {
      var saved := Contents();
      if !Visible(saved, tenantId, applicationId, id) || instances[id].version != expected
        || instances[id].status != Running
      {
        return Err(VersionConflict);
      }
      instances := instances[id := instances[id].(status := Cancelled, errorMessage := reason, finishedAt := Some(now),
                                                  version := instances[id].version + 1)];
      outbox := outbox + [CancellationRequested(instances[id], reason)];
      if !commits {
        Rollback(saved);
        return Err(StoreFailure);
      }
      return Ok(instances[id]);
    }

    /** Moves a running instance to another node, and says how many rows changed. */
    method Advance(tenantId: string, applicationId: string, id: string, nodeId: string) returns (count: nat)
      modifies this`instances
      ensures var db := old(Contents());
              count == if IsRunning(db, tenantId, applicationId, id) && db.instances[id].currentNodeId != nodeId
                       then 1 else 0
      ensures instances == if count == 0 then old(instances) else
                old(instances)[id := old(instances)[id].(currentNodeId := nodeId,
                                                         version := old(instances)[id].version + 1)]
    {
      if id in instances && instances[id].tenantId == tenantId && instances[id].applicationId == applicationId
         && instances[id].status == Running && instances[id].currentNodeId != nodeId
      {
        instances := instances[id := instances[id].(currentNodeId := nodeId, version := instances[id].version + 1)];
        return 1;
      }
      return 0;
    }

    method UpdateInstanceNode(tenantId: string, applicationId: string, id: string, nodeId: string, commits: bool)
      returns (r: Result<()>)
      modifies this
      ensures Tx(Contents(), r)
              == Tables.UpdateInstanceNode(old(Contents()), tenantId, applicationId, id, nodeId, commits)
      ensures r.Ok? <==> commits && IsRunning(old(Contents()), tenantId, applicationId, id)
      ensures r.Ok? ==>
                && instances[id] == old(instances)[id].(currentNodeId := nodeId, version := instances[id].version)
                && instances[id].version == old(instances)[id].version
                                            + (if old(instances)[id].currentNodeId == nodeId then 0 else 1)
                && Contents() == old(Contents()).(instances := old(instances)[id := instances[id]])
      ensures r.Err? ==> Contents() == old(Contents())
    {
      if !commits {
        return Err(StoreFailure);
      }
      var count := Advance(tenantId, applicationId, id, nodeId);
      if count == 1 {
        return Ok(());
      }
      if !Visible(Contents(), tenantId, applicationId, id) {
        return Err(NotFound);
      }
      if instances[id].status == Running && instances[id].currentNodeId == nodeId {
        assert instances[id := instances[id]] == instances;
        return Ok(());
      }
      return Err(Conflict);
    }

    method FinishInstance(tenantId: string, applicationId: string, id: string, status: InstanceStatus, result: string,
                          errorMessage: string, now: int, commits: bool) returns (r: Result<Instance>)
      modifies this
      ensures Tx(Contents(), r)
              == Tables.FinishInstance(old(Contents()), tenantId, applicationId, id, status, result, errorMessage, now,
                                       commits)
      ensures r.Ok? <==>
                && Visible(old(Contents()), tenantId, applicationId, id)
                && (old(instances)[id].status == status || (commits && old(instances)[id].status == Running))
      ensures r.Ok? ==>
                if old(instances)[id].status == status
                then r.value == old(instances)[id] && Contents() == old(Contents())
                else
                  && r.value == old(instances)[id].(status := status, result := result, errorMessage := errorMessage,
                                                    finishedAt := Some(now), version := old(instances)[id].version + 1)
                  && Contents() == old(Contents()).(instances := old(instances)[id := r.value],
                                                    outbox := old(outbox) + [StatusChanged(r.value, Running)])
      ensures r.Err? ==> Contents() == old(Contents())
    {
      var saved := Contents();
      if !Visible(saved, tenantId, applicationId, id) {
        return Err(NotFound);
      }
      var previous := instances[id].status;
      if previous == status {
        return Ok(instances[id]);
      }
      if previous != Running {
        return Err(Conflict);
      }
      instances := instances[id := instances[id].(status := status, result := result, errorMessage := errorMessage,
                                                  finishedAt := Some(now), version := instances[id].version + 1)];
      outbox := outbox + [StatusChanged(instances[id], previous)];
      if !commits {
        Rollback(saved);
        return Err(StoreFailure);
      }
      return Ok(instances[id]);
    }

    /**
     An existing task of the node is kept; else the instance is moved first, then the task and its event are added.
     */
    method CreateTask(value: Task, commits: bool) returns (r: Result<Task>)
      modifies this
      ensures var tx := Tables.CreateTask(old(Contents()), value, commits);
              Contents() == tx.db && (if tx.result.Err? then r == Err(tx.result.error) else r.Ok?)
      ensures r.Ok? ==>
                if HasTask(old(Contents()), value) then
                  && (exists id :: id in old(tasks) && r.value == old(tasks)[id])
                  && IsTaskOf(r.value, value.tenantId, value.applicationId, value.instanceId, value.nodeId)
                  && Contents() == old(Contents())
                else
                  && r.value == value && value.id !in old(tasks)
                  && tasks == old(tasks)[value.id := value.(version := 1)]
                  && outbox == old(outbox) + [TaskCreated(value)] && history == old(history)
                  && definitions == old(definitions) && revisions == old(revisions)
                  && IsRunning(old(Contents()), value.tenantId, value.applicationId, value.instanceId)
                  && var was := old(instances)[value.instanceId];
                     instances == old(instances)[value.instanceId :=
                       was.(currentNodeId := value.nodeId,
                            version := was.version + (if was.currentNodeId == value.nodeId then 0 else 1))]
      ensures r.Err? ==> Contents() == old(Contents())
    {
      var saved := Contents();
      if HasTask(saved, value) {
        var id :| id in tasks && IsTaskOf(tasks[id], value.tenantId, value.applicationId, value.instanceId,
                                          value.nodeId);
        return Ok(tasks[id]);
      }
      var count := Advance(value.tenantId, value.applicationId, value.instanceId, value.nodeId);
      if count == 0 {
        if !Visible(saved, value.tenantId, value.applicationId, value.instanceId) {
          return Err(NotFound);
        }
        if instances[value.instanceId].status != Running || instances[value.instanceId].currentNodeId != value.nodeId {
          return Err(Conflict);
        }
        assert instances[value.instanceId := instances[value.instanceId]] == instances;
      }
      if !InsertableTask(saved, value) {
        Rollback(saved);
        return Err(StoreFailure);
      }
      tasks := tasks[value.id := value.(version := 1)];
      outbox := outbox + [TaskCreated(value)];
      if !commits {
        Rollback(saved);
        return Err(StoreFailure);
      }
      return Ok(value);
    }

    method AddHistory(row: HistoryRow) returns (added: bool)
      modifies this`history
      ensures added == (row.id !in old(history))
      ensures history == if added then old(history)[row.id := row] else old(history)
    {
      added := row.id !in history;
      if added {
        history := history[row.id := row];
      }
    }

    method ClaimTask(tenantId: string, applicationId: string, id: string, expected: nat, actor: string,
                     historyId: string, now: int,
                     commits: bool) returns (r: Result<Task>)
      modifies this
      ensures Tx(Contents(), r)
              == Tables.ClaimTask(old(Contents()), tenantId, applicationId, id, expected, actor, historyId, now,
                                  commits)
      ensures r.Ok? ==>
                && id in old(tasks) && old(tasks)[id].status == Pending && old(tasks)[id].version == expected
                && var was := old(tasks)[id];
                   && r.value == was.(status := Claimed, claimedBy := actor, version := expected + 1)
                   && Contents() == old(Contents()).(
                        tasks := old(tasks)[id := r.value],
                        history := old(history)[historyId :=
                          HistoryRow(historyId, was.tenantId, was.applicationId, was.id, was.instanceId, ClaimAction,
                                     actor, Pending, Claimed, NoDetail, now)])
      ensures r.Err? ==> Contents() == old(Contents())
    {
      var saved := Contents();
      if id !in tasks || tasks[id].tenantId != tenantId || tasks[id].applicationId != applicationId
         || tasks[id].version != expected || tasks[id].status != Pending
      {
        return Err(VersionConflict);
      }
      tasks := tasks[id := tasks[id].(status := Claimed, claimedBy := actor, version := tasks[id].version + 1)];
      var added := AddHistory(ClaimRow(tasks[id], historyId, actor, now));
      if !added || !commits {
        Rollback(saved);
        return Err(StoreFailure);
      }
      return Ok(tasks[id]);
    }

    /** The row is updated first; the application is only checked when the row is read back. */
    method CompleteTask(current: Task, decision: Decision, comment: string, output: string, actor: string,
                        historyId: string, now: int,
                        commits: bool) returns (r: Result<Task>)
      modifies this
      ensures Tx(Contents(), r)
              == Tables.CompleteTask(old(Contents()), current, decision, comment, output, actor, historyId, now,
                                     commits)
      ensures r.Ok? ==>
                && current.id in old(tasks) && old(tasks)[current.id].version == current.version
                && old(tasks)[current.id].claimedBy in {"", actor}
                && var status := if decision == Reject then TaskRejected else TaskApproved;
                   && r.value == old(tasks)[current.id].(status := status, decision := decision, comment := comment,
                                                         output := output, completedAt := Some(now),
                                                         version := current.version + 1)
                   && Contents() == old(Contents()).(
                        tasks := old(tasks)[current.id := r.value],
                        history := old(history)[historyId :=
                          HistoryRow(historyId, current.tenantId, current.applicationId, current.id, current.instanceId,
                                     CompleteAction, actor, current.status, status, DecisionDetail(decision, comment),
                                     now)],
                        outbox := old(outbox) + [TaskCompleted(r.value)])
      ensures r.Err? ==> Contents() == old(Contents())
    {
      var saved := Contents();
      if !Open(saved, current, actor) {
        return Err(VersionConflict);
      }
      var status := TaskApproved;
      if decision == Reject {
        status := TaskRejected;
      }
      tasks := tasks[current.id := tasks[current.id].(status := status, decision := decision, comment := comment,
                                                      output := output,
                                                      completedAt := Some(now),
                                                        version := tasks[current.id].version + 1)];
      var added := AddHistory(CompleteRow(current, decision, comment, historyId, actor, now));
      if !added {
        Rollback(saved);
        return Err(StoreFailure);
      }
      if tasks[current.id].applicationId != current.applicationId {
        Rollback(saved);
        return Err(NotFound);
      }
      outbox := outbox + [TaskCompleted(tasks[current.id])];
      if !commits {
        Rollback(saved);
        return Err(StoreFailure);
      }
      return Ok(tasks[current.id]);
    }

    method DelegateTask(current: Task, to: string, reason: string, actor: string, historyId: string, now: int,
                        commits: bool, readsBack: bool) returns (r: Result<Task>)
      modifies this
      ensures Contents() == Tables.DelegateTask(old(Contents()), current, to, reason, actor, historyId, now, commits).db
      ensures var open := Open(old(Contents()), current, actor);
              var written := commits && open && historyId !in old(history);
              && (r == Err(VersionConflict) <==> !open)
              && (r.Ok? <==> written && readsBack && old(tasks)[current.id].applicationId == current.applicationId)
              && (r.Err? && Contents() != old(Contents())
                  <==> written && !(readsBack && old(tasks)[current.id].applicationId == current.applicationId))
      ensures r.Ok? ==>
                && r.value == old(tasks)[current.id].(assigneeType := User, assignee := to, claimedBy := "",
                                                      status := Pending, version := current.version + 1)
                && Contents() == old(Contents()).(
                     tasks := old(tasks)[current.id := r.value],
                     history := old(history)[historyId :=
                       HistoryRow(historyId, current.tenantId, current.applicationId, current.id, current.instanceId,
                                  DelegateAction, actor, current.status, Pending, DelegationDetail(to, reason), now)])
    {
      var saved := Contents();
      if !Open(saved, current, actor) {
        return Err(VersionConflict);
      }
      tasks := tasks[current.id := tasks[current.id].(assigneeType := User, assignee := to, claimedBy := "",
                                                      status := Pending,
                                                      version := tasks[current.id].version + 1)];
      var added := AddHistory(DelegateRow(current, to, reason, historyId, actor, now));
      if !added || !commits {
        Rollback(saved);
        return Err(StoreFailure);
      }
      if !readsBack {
        return Err(StoreFailure);
      }
      return if tasks[current.id].applicationId == current.applicationId then Ok(tasks[current.id]) else Err(NotFound);
    }

    /** Selects the oldest expired rows, at most `limit` of them, and deletes them. */
    method DeleteTaskHistoryBefore(before: int, limit: nat, fails: bool)
      returns (r: Result<nat>, ghost ids: set<string>)
      modifies this`history
      ensures fails <==> r.Err?
      ensures r.Ok? ==> IsBatch(old(Contents()), before, limit, ids) && r.value == |ids|
      ensures r.Ok? ==> OldestAreGone(old(Contents()), Contents(), before, limit, ids)
      ensures Contents() == if r.Ok? then PurgeHistory(old(Contents()), ids) else old(Contents())
    {
      if fails {
        return Err(StoreFailure), {};
      }
      ghost var batch := BatchExists(Contents(), before, limit);
      var selected :| selected <= ExpiredIds(Contents(), before) && IsBatch(Contents(), before, limit, selected);
      ids := selected;
      BatchIsOldest(Contents(), before, limit, ids);
      if selected == {} {
        assert history - {} == history;
        return Ok(0), ids;
      }
      history := history - selected;
      return Ok(|selected|), ids;
    }
  }
}
