/**
 The service operations in their own shape (`internal/workflow/service.go`).  Each decides on what it has read, trims
 what it was sent, and then runs one transaction of the repository; what it read may be older than what is stored when
 the transaction runs.  Proved: an operation runs its transaction if and only if the checks of `Service.Admissible` hold
 and the caller has access, and otherwise changes nothing.
 */
module Operations {
  import opened Text
  import opened Model
  import opened Validation
  import opened Tables
  import S = Service
  import R = Repository

  /** The authenticated caller; the tenant may be left open. */
  datatype Principal = Principal(id: string, tenantId: string)

  /** `actorForTenant`. */
  function ActorForTenant(caller: Option<Principal>, tenantId: string): (r: Result<string>)
    ensures caller.None? <==> r == Err(ActorRequired)
    ensures r.Ok? <==> caller.Some? && (caller.value.tenantId == "" || caller.value.tenantId == tenantId)
    ensures r.Ok? ==> r.value == caller.value.id
  {
    if caller.None? then Err(ActorRequired)
    else if caller.value.tenantId != "" && caller.value.tenantId != tenantId then Err(Forbidden)
    else Ok(caller.value.id)
  }

  /** The caller acts in the tenant, and the tenant has been granted the application. */
  predicate HasAccess(caller: Option<Principal>, verified: Result<()>, tenantId: string, applicationId: string) {
    && caller.Some? && (caller.value.tenantId == "" || caller.value.tenantId == tenantId)
    && tenantId != "" && applicationId != "" && verified.Ok?
  }

  function Version(expected: int): nat {
    if expected < 0 then 0 else expected
  }

  /** What is left open: JSON decoding, roles and permissions. */
  function AnyEnv(isJson: string -> bool): S.Env {
    S.Env(isJson, (actor, role) => false, (actor, expression) => false)
  }

  /** `^[A-Za-z0-9._:-]{8,128}$` */
  predicate IsIdempotencyKey(s: string) {
    8 <= |s| <= 128 && forall i | 0 <= i < |s| :: IsLetter(s[i]) || IsDigit(s[i]) || s[i] in "._:-"
  }

  class WorkflowService {
    const repository: R.Repository

    constructor (repository: R.Repository)
      ensures this.repository == repository
    {
      this.repository := repository;
    }

    // ---------- definitions ----------

    method CreateDefinition(caller: Option<Principal>, verified: Result<()>, isJson: string -> bool, newId: string,
                            tenantId: string, applicationId: string, key: string, name: string, description: string,
                            nodes: seq<Node>, edges: seq<Edge>, commits: bool, readsBack: bool, ghost w: S.World)
      returns (r: Result<Definition>)
      requires w.db == repository.Contents()
      modifies repository
      ensures var value := Definition(newId, tenantId, applicationId, key, Trim(name), Trim(description), Draft, 0,
                                      nodes, edges, 1);
              && (HasAccess(caller, verified, tenantId, applicationId)
                  && ValidDefinition(isJson, key, name, nodes, edges)
                  ==> S.Admissible(AnyEnv(isJson), w, S.Create(value))
                      && repository.Contents() == S.Run(w.db, S.Create(value), commits))
              && (!(HasAccess(caller, verified, tenantId, applicationId)
                    && ValidDefinition(isJson, key, name, nodes, edges))
                  ==> r.Err? && repository.Contents() == w.db)
              && (r.Ok? ==> r.value == value && value.id in repository.definitions
                            && repository.definitions[value.id] == value)
    {
      var actor := ActorForTenant(caller, tenantId);
      if actor.Err? {
        return Err(actor.error);
      }
      if tenantId == "" || applicationId == "" {
        return Err(Invalid);
      }
      if verified.Err? {
        return Err(verified.error);
      }
      var valid := ValidateDefinition(isJson, key, name, nodes, edges);
      if !valid {
        return Err(Invalid);
      }
      r := repository.CreateDefinition(
        Definition(newId, tenantId, applicationId, key, Trim(name), Trim(description), Draft, 0, nodes, edges, 1),
        commits, readsBack);
    }

    /** `read` is the definition that was read for the update. */
    method UpdateDefinition(caller: Option<Principal>, verified: Result<()>, isJson: string -> bool, id: string,
                            tenantId: string, applicationId: string, name: string, description: string,
                            nodes: seq<Node>, edges: seq<Edge>, expected: int, read: Result<Definition>, commits: bool,
                            readsBack: bool, ghost w: S.World)
      returns (r: Result<Definition>)
      requires w.db == repository.Contents()
      requires read.Ok? ==> read.value in w.seenDefinitions && read.value.id == id != ""
                            && OwnedBy(read.value, tenantId, applicationId)
      modifies repository
      ensures HasAccess(caller, verified, tenantId, applicationId) && read.Ok?
              && S.Admissible(AnyEnv(isJson), w,
                              S.Update(name, description, nodes, edges, Version(expected), read.value))
              ==> repository.Contents()
                  == S.Run(w.db, S.Update(name, description, nodes, edges, Version(expected), read.value), commits)
      ensures !(HasAccess(caller, verified, tenantId, applicationId) && read.Ok?
                && S.Admissible(AnyEnv(isJson), w,
                                S.Update(name, description, nodes, edges, Version(expected), read.value)))
              ==> r.Err? && repository.Contents() == w.db
      ensures r.Ok? ==>
                && r.value.name == Trim(name) && r.value.description == Trim(description)
                && r.value.nodes == nodes && r.value.edges == edges && r.value.version == expected + 1
                && id in repository.definitions && repository.definitions[id] == r.value
    {
      var actor := ActorForTenant(caller, tenantId);
      if actor.Err? {
        return Err(actor.error);
      }
      if id == "" || tenantId == "" || applicationId == "" || expected < 1 {
        return Err(Invalid);
      }
      if verified.Err? {
        return Err(verified.error);
      }
      if read.Err? {
        return Err(read.error);
      }
      var current := read.value;
      if current.applicationId != applicationId {
        return Err(Forbidden);
      }
      var valid := ValidateDefinition(isJson, current.key, name, nodes, edges);
      if !valid {
        return Err(Invalid);
      }
      r := repository.UpdateDefinition(
        Definition(id, tenantId, applicationId, "", Trim(name), Trim(description), Draft, 0, nodes, edges, 0),
        expected, commits, readsBack);
    }

    method PublishDefinition(caller: Option<Principal>, verified: Result<()>, isJson: string -> bool, id: string,
                             tenantId: string, applicationId: string, expected: int, read: Result<Definition>,
                             commits: bool, ghost w: S.World)
      returns (r: Result<Definition>)
      requires w.db == repository.Contents()
      requires read.Ok? ==> read.value in w.seenDefinitions && read.value.id == id != ""
                            && OwnedBy(read.value, tenantId, applicationId)
      modifies repository
      ensures HasAccess(caller, verified, tenantId, applicationId) && read.Ok?
              && S.Admissible(AnyEnv(isJson), w, S.Publish(Version(expected), read.value))
              ==> repository.Contents() == S.Run(w.db, S.Publish(Version(expected), read.value), commits)
                  && (r.Ok? <==> repository.Contents() != w.db)
      ensures !(HasAccess(caller, verified, tenantId, applicationId) && read.Ok?
                && S.Admissible(AnyEnv(isJson), w, S.Publish(Version(expected), read.value)))
              ==> r.Err? && repository.Contents() == w.db
    {
      var actor := ActorForTenant(caller, tenantId);
      if actor.Err? {
        return Err(actor.error);
      }
      if tenantId == "" || applicationId == "" || id == "" || expected < 1 {
        return Err(Invalid);
      }
      if verified.Err? {
        return Err(verified.error);
      }
      if read.Err? {
        return Err(read.error);
      }
      var current := read.value;
      var valid := ValidateDefinition(isJson, current.key, current.name, current.nodes, current.edges);
      if !valid {
        return Err(Invalid);
      }
      r := repository.PublishDefinition(tenantId, applicationId, id, expected, commits);
      if r.Ok? {
        assert repository.definitions[id].version == w.db.definitions[id].version + 1;
      }
    }

    method DisableDefinition(caller: Option<Principal>, verified: Result<()>, id: string, tenantId: string,
                             applicationId: string, expected: int, commits: bool, readsBack: bool, ghost w: S.World)
      returns (r: Result<Definition>)
      requires w.db == repository.Contents()
      modifies repository
      ensures HasAccess(caller, verified, tenantId, applicationId) && id != "" && expected >= 1
              ==> repository.Contents()
                  == S.Run(w.db, S.Disable(tenantId, applicationId, id, Version(expected)), commits)
      ensures !(HasAccess(caller, verified, tenantId, applicationId) && id != "" && expected >= 1)
              ==> r.Err? && repository.Contents() == w.db
      ensures r.Ok? ==> r.value.status == Disabled && id in repository.definitions
                        && repository.definitions[id] == r.value
    {
      var actor := ActorForTenant(caller, tenantId);
      if actor.Err? {
        return Err(actor.error);
      }
      if tenantId == "" || applicationId == "" || id == "" || expected < 1 {
        return Err(Invalid);
      }
      if verified.Err? {
        return Err(verified.error);
      }
      r := repository.DisableDefinition(tenantId, applicationId, id, expected, commits, readsBack);
    }

    // ---------- instances ----------

    /** `read` is the published revision that was read for the key, with the definition row it was found by. */
    method StartInstance(caller: Option<Principal>, verified: Result<()>, isJson: string -> bool, newId: string,
                         tenantId: string, applicationId: string, definitionKey: string, businessKey: string,
                         title: string, variables: string, idempotencyKey: string,
                         read: Result<(Definition, Definition)>, commits: bool, ghost w: S.World)
      returns (r: Result<Instance>)
      requires w.db == repository.Contents() && newId != ""
      requires caller.Some? ==> caller.value.id != ""
      requires read.Ok? ==>
                 var (row, revision) := read.value;
                 && row in w.seenDefinitions && row.status == Published && row.key == definitionKey
                 && OwnedBy(row, tenantId, applicationId)
                 && (row.id, row.publishedRevision) in w.db.revisions
                 && w.db.revisions[(row.id, row.publishedRevision)].definitionId == row.id
                 && w.db.revisions[(row.id, row.publishedRevision)].revision == row.publishedRevision
                 && revision == Pinned(w.db.revisions[(row.id, row.publishedRevision)])
                 && OwnedBy(revision, tenantId, applicationId)
      modifies repository
      ensures var started := HasAccess(caller, verified, tenantId, applicationId) && read.Ok?
                && IsIdentifier(definitionKey) && !IsBlank(businessKey) && !IsBlank(title)
                && IsIdempotencyKey(idempotencyKey) && JsonObject(isJson, variables);
              if started then
                var row := read.value.0;
                var value := Instance(newId, tenantId, applicationId, row.id, row.publishedRevision, businessKey,
                                      idempotencyKey, Trim(title), caller.value.id, Running, "",
                                      if AllSpace(variables) then "{}" else variables, "{}", "", None, 1);
                && S.Admissible(AnyEnv(isJson), w, S.Launch(value, row))
                && repository.Contents() == S.Run(w.db, S.Launch(value, row), commits)
                && (r.Ok? ==> r.value == value && value.id in repository.instances
                              && repository.instances[value.id] == value)
              else r.Err? && repository.Contents() == w.db
    {
      var actor := ActorForTenant(caller, tenantId);
      if actor.Err? {
        return Err(actor.error);
      }
      if tenantId == "" || applicationId == "" || !IsIdentifier(definitionKey) || IsBlank(businessKey) || IsBlank(title)
         || !IsIdempotencyKey(idempotencyKey)
      {
        return Err(Invalid);
      }
      if verified.Err? {
        return Err(verified.error);
      }
      if !JsonObject(isJson, variables) {
        return Err(Invalid);
      }
      if read.Err? {
        return Err(read.error);
      }
      var definition := read.value.1;
      BlankIs(variables);
      r := repository.CreateInstance(
        Instance(newId, tenantId, applicationId, definition.id, definition.publishedRevision, businessKey,
                 idempotencyKey, Trim(title), actor.value, Running, "", ObjectText(variables), "{}", "", None, 1),
        definition, commits);
    }

    method CancelInstance(caller: Option<Principal>, verified: Result<()>, id: string, tenantId: string,
                          applicationId: string, reason: string, expected: int, now: int, commits: bool,
                          ghost w: S.World)
      returns (r: Result<Instance>)
      requires w.db == repository.Contents()
      modifies repository
      ensures HasAccess(caller, verified, tenantId, applicationId) && id != "" && expected >= 1 && !AllSpace(reason)
              ==> repository.Contents()
                  == S.Run(w.db, S.Cancel(tenantId, applicationId, id, Version(expected), reason, now), commits)
      ensures !(HasAccess(caller, verified, tenantId, applicationId) && id != "" && expected >= 1 && !AllSpace(reason))
              ==> r.Err? && repository.Contents() == w.db
      ensures r.Ok? ==> r.value.status == Cancelled && r.value.errorMessage == Trim(reason)
                        && id in repository.instances && repository.instances[id] == r.value
    {
      var actor := ActorForTenant(caller, tenantId);
      if actor.Err? {
        return Err(actor.error);
      }
      BlankIs(reason);
      if tenantId == "" || applicationId == "" || id == "" || expected < 1 || IsBlank(reason) {
        return Err(Invalid);
      }
      if verified.Err? {
        return Err(verified.error);
      }
      r := repository.CancelInstance(tenantId, applicationId, id, expected, Trim(reason), now, commits);
    }

    // ---------- tasks ----------

    /**
     `authorizedTask`: the task as it is stored now, for a caller that may act on it.  `roles` are the roles of the
     caller, if they could be read, and `mayPerform` says which permission actions the caller has.
     */
    method AuthorizedTask(caller: Option<Principal>, verified: Result<()>, roles: Option<seq<string>>,
                          mayPerform: string -> bool, tenantId: string, applicationId: string, id: string)
      returns (r: Result<(string, Task)>)
      ensures r.Ok? <==>
                && HasAccess(caller, verified, tenantId, applicationId) && id != "" && id in repository.tasks
                && var t, actor := repository.tasks[id], caller.value.id;
                   && t.tenantId == tenantId && t.applicationId == applicationId
                   && (t.claimedBy == "" || t.claimedBy == actor)
                   && (t.assigneeType == User ==> t.assignee == actor)
                   && (t.assigneeType == Starter ==> t.assignee == actor)
                   && (t.assigneeType == Role ==> roles.Some? && t.assignee in roles.value)
                   && (t.assigneeType == Expression ==> mayPerform(t.assignee))
                   && !t.assigneeType.OtherAssignee?
      ensures r.Ok? ==> r.value == (caller.value.id, repository.tasks[id])
      ensures r.Ok? ==>
                S.Authorized(S.Env(s => false, (actor, role) => roles.Some? && role in roles.value,
                                   (actor, action) => mayPerform(action)),
                             r.value.0, r.value.1)
    {
      var actor := ActorForTenant(caller, tenantId);
      if actor.Err? {
        return Err(actor.error);
      }
      if tenantId == "" || applicationId == "" || id == "" {
        return Err(Invalid);
      }
      if verified.Err? {
        return Err(verified.error);
      }
      if id !in repository.tasks || repository.tasks[id].tenantId != tenantId
         || repository.tasks[id].applicationId != applicationId
      {
        return Err(NotFound);
      }
      var task := repository.tasks[id];
      if task.claimedBy != "" && task.claimedBy != actor.value {
        return Err(Forbidden);
      }
      var allowed := task.assigneeType == User || task.assigneeType == Starter;
      if allowed && task.assignee != actor.value {
        allowed := false;
      }
      if task.assigneeType == Role {
        if roles.None? {
          return Err(StoreFailure);
        }
        allowed := task.assignee in roles.value;
      }
      if task.assigneeType == Expression {
        allowed := mayPerform(task.assignee);
      }
      if !allowed {
        return Err(Forbidden);
      }
      return Ok((actor.value, task));
    }

    /** `authorized` is what `AuthorizedTask` has answered, possibly some time ago. */
    method ClaimTask(authorized: Result<(string, Task)>, expected: int, historyId: string, now: int, commits: bool,
                     ghost env: S.Env, ghost w: S.World)
      returns (r: Result<Task>)
      requires w.db == repository.Contents()
      requires authorized.Ok? ==>
                 var (actor, t) := authorized.value; t in w.seenTasks && actor != "" && S.Authorized(env, actor, t)
      modifies repository
      ensures if authorized.Ok? && authorized.value.1.version == expected >= 1 then
                var a := S.Claim(authorized.value.1, authorized.value.0, historyId, now);
                S.Admissible(env, w, a) && repository.Contents() == S.Run(w.db, a, commits)
              else r.Err? && repository.Contents() == w.db
      ensures r.Ok? ==>
                && r.value.status == Claimed && r.value.claimedBy == authorized.value.0
                && authorized.value.1.id in repository.tasks && repository.tasks[authorized.value.1.id] == r.value
    {
      if authorized.Err? {
        return Err(authorized.error);
      }
      var (actor, task) := authorized.value;
      if expected < 1 || task.version != expected {
        return Err(VersionConflict);
      }
      r := repository.ClaimTask(task.tenantId, task.applicationId, task.id, expected, actor, historyId, now, commits);
    }

    method CompleteTask(authorized: Result<(string, Task)>, isJson: string -> bool, decision: Decision, comment: string,
                        output: string, expected: int, historyId: string, now: int, commits: bool, ghost env: S.Env,
                        ghost w: S.World)
      returns (r: Result<Task>)
      requires w.db == repository.Contents() && env.isJson == isJson
      requires authorized.Ok? ==>
                 var (actor, t) := authorized.value; t in w.seenTasks && actor != "" && S.Authorized(env, actor, t)
      modifies repository
      ensures if authorized.Ok? && authorized.value.1.version == expected >= 1 && decision in {Approve, Reject}
                && isJson(if AllSpace(output) then "{}" else output)
              then
                var a := S.Complete(authorized.value.1, decision, comment, output, authorized.value.0, historyId, now);
                S.Admissible(env, w, a) && repository.Contents() == S.Run(w.db, a, commits)
              else r.Err? && repository.Contents() == w.db
      ensures r.Ok? ==>
                && r.value.status == (if decision == Approve then TaskApproved else TaskRejected)
                && r.value.decision == decision && r.value.comment == Trim(comment)
                && r.value.output == (if AllSpace(output) then "{}" else output)
                && authorized.value.1.id in repository.tasks && repository.tasks[authorized.value.1.id] == r.value
    {
      if authorized.Err? {
        return Err(authorized.error);
      }
      var (actor, task) := authorized.value;
      BlankIs(output);
      if expected < 1 || task.version != expected || decision !in {Approve, Reject}
         || !JsonObject(isJson, ObjectText(output))
      {
        return Err(Invalid);
      }
      r := repository.CompleteTask(task, decision, Trim(comment), ObjectText(output), actor, historyId, now, commits);
    }

    method DelegateTask(authorized: Result<(string, Task)>, to: string, reason: string, expected: int,
                        historyId: string, now: int, commits: bool, readsBack: bool, ghost env: S.Env,
                        ghost w: S.World)
      returns (r: Result<Task>)
      requires w.db == repository.Contents()
      requires authorized.Ok? ==>
                 var (actor, t) := authorized.value; t in w.seenTasks && actor != "" && S.Authorized(env, actor, t)
      modifies repository
      ensures if authorized.Ok? && authorized.value.1.version == expected >= 1 && !AllSpace(to) && !AllSpace(reason)
                && to != authorized.value.0
              then
                var a := S.Delegate(authorized.value.1, to, reason, authorized.value.0, historyId, now);
                S.Admissible(env, w, a) && repository.Contents() == S.Run(w.db, a, commits)
              else r.Err? && repository.Contents() == w.db
      ensures r.Ok? ==>
                && r.value.status == Pending && r.value.claimedBy == "" && r.value.assigneeType == User
                && r.value.assignee == Trim(to)
                && authorized.value.1.id in repository.tasks && repository.tasks[authorized.value.1.id] == r.value
    {
      if authorized.Err? {
        return Err(authorized.error);
      }
      var (actor, task) := authorized.value;
      BlankIs(to);
      BlankIs(reason);
      if expected < 1 || task.version != expected || IsBlank(to) || IsBlank(reason) || to == actor {
        return Err(Invalid);
      }
      r := repository.DelegateTask(task, Trim(to), Trim(reason), actor, historyId, now, commits, readsBack);
    }
  }
}
