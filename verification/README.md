# A verified model of the workflow service

The service validates workflow graphs, publishes them as frozen revisions, and executes each started instance as a
durable workflow against a transactional database. An outbox and an at-least-once bus connect the two. This project
models four pieces and proves how they fit together:

- **The graph validator.** `Validation` and `Kahn` hold `ValidateDefinition` and `validateEdges` as loops over maps,
  in-degrees and a queue. Their verdict is proved to be exactly "valid", where acyclicity is the path property of
  `Graph`, over multigraphs with parallel edges.
- **The graph interpreter.** `Runtime` is the run of a workflow as a machine that asks for one thing at a time and is
  replayed over its recorded history, as a durable workflow is. `Execution` has `Execute` and `selectNext` in their own
  shape, with local variables, loops and the deferred compensation, proved against that machine. `RuntimeLaws` proves
  the saga, result and path laws for every graph, every history of replies and every order among equal priorities.
  `OutcomeLaws` proves what output a run works with, why it fails and that it sleeps through its timers, `ForwardRuns`
  that every good reply takes it nearer to its end. `Parametricity` shows which parts of a node the run reads at all.
- **The database.** `Tables` states the committed effect of each transaction; `Repository` is the class whose methods
  change the tables and the outbox step by step, with rollback, and is proved against it. `Service` adds the checks
  before the transactions, made on a row that was read earlier and may be stale; `Operations` has the service methods in
  their own shape, proved to run their transaction exactly when these checks hold. `Ledger`, `LedgerProofs` and
  `LedgerLaws` prove invariants of every reachable state and laws of every behaviour; `EffectLaws` says what each
  operation changes and exactly when, and `AccessLaws` who may change what, with tenants and unique keys.
- **The protocol.** `Protocol` joins the two with event delivery (duplicated, reordered, delayed, dropped) and activity
  attempts (retried, overlapping, failing before or after they took effect). `ProtocolProofs` keeps one invariant over
  all of it; `ProtocolLaws` proves what a user of the engine relies on, `DeliveryLaws` what the delivery of an event
  achieves, and `ReliableLaws` what holds in addition when finishes are reported reliably. `Completion` proves that
  nothing is ever stuck: every running instance can still be brought to its end. `LostReport` is one whole behaviour, built step by
  step, in which that reliability is missing. `Events` covers the event encoding between them, `Histories` reads a run
  back from its history.

`Retention`, `Cleaner` and `Roles` cover the retention loop and the paging loop over role bindings.

Things outside the model are parameters: whether a text is a JSON object (`isJson`), what the authorization service
answers (`Env`, a new one for every step), the library sort (`sorter`, any sort by priority, stable or not), clocks, new
identifiers, the replies of activities, and every failure of the store, the event factory or the outbox (`commits`,
`readsBack`, `fails`, `reported`). Actor identifiers are not empty, as the authenticated principal guarantees. The unique
constraints and foreign keys are those of the migrations, including the application-scoped ones of
`migrations/postgres/000003_application_scope.up.sql`.

A step of a behaviour is one committed or failed transaction; the rows an operation had read are any rows that were ever
stored. `dafny verify dfyconfig.toml` checks the whole project.

Where an expectation is not met by the code, the contract says exactly when it is. Creating, updating and disabling a
definition and delegating a task read the row back after they have committed, so an error of that read is reported
although the change stands; their contracts in `Repository` say that a failing call has changed something if and only if
the write committed and matched its row and the read back failed. The service's completion of a task can do the same,
because it reads the instance after the commit. "Or changes nothing" speaks of errors the transaction itself reports: a
commit whose acknowledgement is lost is an error with a change for every operation, and enters the protocol as an
attempt that took effect and was not reported.

A delegation to oneself is refused on the text as it was sent, so it goes through with white space around it
(`AccessLaws.DelegatesToSelf`).

A completed instance can be compensated. `ReliableLaws.UndoneLaw` has the exact condition: its run undoes if and only if
its own finish got a reply other than success. `LostReport.CompletedIsUndone` is a behaviour in which that happens, and
`ReliableLaws.CompletedIsKept` shows which reports must be reliable, of that one instance, so that it cannot.

## Model

| member | source | states |
|---|---|---|
| Validation.ValidateDefinition | internal/workflow/graph.go:16-41 | accepts a definition if and only if it is valid: identifiers, names, sizes, every node check, distinct identifiers, one start, some end, and a valid graph |
| Validation.DefinitionRules | internal/workflow/graph.go:16-135 | the same verdict rule by rule: what each type of node needs, identifiers that differ, one start, some end, and the rules of the edges |
| Validation.ValidateEdges | internal/workflow/graph.go:78-135 | exact verdict: accepted if and only if the edges are locally valid, start has one outgoing edge, every other node an incoming one, every non-end node an outgoing one, and no path returns to its beginning; each refusal names a rule that is broken |
| Validation.ScanEdges | internal/workflow/graph.go:83-105 | the first pass fails exactly when some edge breaks a local rule or repeats another, and else records in-degrees and targets of all edges |
| Validation.CheckDegrees | internal/workflow/graph.go:106-117 | finds a broken degree rule exactly when there is one, names it truly, and only reorders the target lists |
| Validation.EdgeKeyIsExact | internal/workflow/graph.go:92-96 | the joined key tells two edges apart exactly by source, target and condition |
| Validation.EveryNodeIsReached | internal/workflow/graph.go:106-134 | in an accepted graph every node is reached from the start node |
| Validation.EveryNodeCanEnd | internal/workflow/graph.go:106-134 | in an accepted graph an end node is reached from every node |
| Validation.PathsAreShort | internal/workflow/graph.go:118-134 | in an accepted graph no path visits a node twice, so no path is longer than the node list |
| Kahn.CountRemovable | internal/workflow/graph.go:118-133 | the number of removed nodes equals the number of nodes if and only if the multigraph has no cycle |
| Kahn.Release | internal/workflow/graph.go:124-130 | one removal lowers the in-degree of each target once for every parallel edge and queues exactly those that reach zero |
| Graph.PrecededSetHasCycle | internal/workflow/graph.go:131-133 | nodes that each keep a predecessor among themselves contain a real cycle: why a short count always means one |
| Graph.OrderedIsAcyclic | internal/workflow/graph.go:118-134 | a removal order in which every edge goes forward leaves no cycle |
| Execution.Execute | internal/workflowruntime/workflow.go:69-170 | the program with its loops and deferred compensation makes the exchanges and reaches the outcome of the replayed machine, for every input and history; conditions are evaluated over, and the result is, the last output there is |
| Execution.SelectNext | internal/workflowruntime/workflow.go:172-200 | chooses a matching conditional edge of least priority, else an unconditional edge of least priority, always leaving the node; no edge only when nothing matches; a failed evaluation only on a failed reply |
| Execution.AwaitApproval | internal/workflowruntime/workflow.go:115-136 | takes signals one by one until one names this node; goes on only from an approval and finishes only as rejected, each time with the output of that signal |
| Execution.Compensation | internal/workflowruntime/workflow.go:92-105 | the deferred loop undoes the completed services last first, ignores each failure, and reports the failed finish |
| RuntimeLaws.SagaLaw | internal/workflowruntime/workflow.go:89-105 | a run that raises an error has attempted exactly the compensable completed services, each once, in reverse order of completion, then one failed finish; a run that returns has attempted none |
| RuntimeLaws.FailedServiceLaw | internal/workflowruntime/workflow.go:137-145 | the service whose failure ends a run is never compensated |
| RuntimeLaws.ResultLaw | internal/workflowruntime/workflow.go:126-154 | a run that returns had its own finish accepted; it is rejected exactly when the last decision was a rejection, and else an end node was reached with every approval on the path approved; every service on the path has answered |
| RuntimeLaws.PathLaw | internal/workflowruntime/workflow.go:107-169 | on an accepted graph a run follows a path from the start, visits no node twice, stops within the number of nodes and never ends with an invalid workflow, graph, edge or node |
| RuntimeLaws.RequestOnceLaw | internal/workflowruntime/workflow.go:107-145 | on an accepted graph no two calls of a run create a task or invoke a service for the same node |
| OutcomeLaws.OutputLaw | internal/workflowruntime/workflow.go:126-154 | every condition is evaluated over, and every finish and result is, the output of the last answered service or taken decision before it, and the empty object if there is none |
| OutcomeLaws.TimerLaw | internal/workflowruntime/workflow.go:146-149 | a run that returns has slept through every timer on its way, in order, and none of its exchanges has failed |
| OutcomeLaws.ErrorLaw | internal/workflowruntime/workflow.go:107-170 | the error a run raises is that of its last forward exchange, the only one that failed; or none failed and the graph is at fault |
| OutcomeLaws.AdmissionLaw | internal/workflowruntime/workflow.go:69-84 | a run refuses its input if and only if an identifier or the start node is missing, and then makes no exchange |
| ForwardRuns.GoodReplyHelps | internal/workflowruntime/workflow.go:107-169 | on an accepted graph every good reply takes a run strictly nearer to its end, and an accepted finish ends it |
| Runtime.EndedStays | internal/workflowruntime/workflow.go:69-170 | a run that has ended is not changed by further replies |
| Parametricity.ReplayMaps | internal/workflowruntime/workflow.go:107-169 | a run over nodes with other contents but the same identifiers, types and compensations takes the same turns after every history |
| Events.StartArrives | internal/workflowevent/factory.go:87-107 | encoding then decoding a start event keeps identity, variables, edges and every node of a validated definition, up to unknown assignee types of nodes that are not approvals |
| Events.DecisionArrives | internal/workflowruntime/commands.go:105-118 | the node, decision and output of a decided task arrive unchanged |
| Events.StillValid | internal/workflowruntime/commands.go:124-151 | the decoded graph of a valid definition still validates |
| Events.RunsAlike | internal/workflowruntime/commands.go:64-85 | the run over the decoded graph makes the same calls and ends alike as over the published one, after every history |
| Events.WorkflowIdIsExact | internal/workflowruntime/commands.go:120-122 | with identifiers free of colons, two instances share a workflow identifier only if tenant and instance are the same |
| Repository.Repository.CreateDefinition | internal/workflow/repository.go:66-72 | inserts the row at version 1 unless identifier or key is taken, returns it and changes nothing else; an error comes with a change if and only if a new row committed and the read back failed |
| Repository.Repository.UpdateDefinition | internal/workflow/repository.go:74-82 | stores exactly the given name, description and graph in the expected draft version, raises the version, returns the row and changes nothing else; a version conflict exactly when that draft version is not there; an error comes with a change if and only if the update committed and the read back failed |
| Repository.Repository.PublishDefinition | internal/workflow/repository.go:84-129 | adds the revision with the content of the draft, the published row and the event together, exactly when the expected draft version is there; or changes nothing |
| Repository.Repository.DisableDefinition | internal/workflow/repository.go:131-139 | stores and returns the expected published version as disabled and changes nothing else; a version conflict exactly when it is not there; an error comes with a change if and only if the update committed and the read back failed |
| Repository.Repository.CreateInstance | internal/workflow/repository.go:251-272 | adds the given instance and a start event that carries it, exactly when its keys are new; or changes nothing |
| Repository.Repository.CancelInstance | internal/workflow/repository.go:283-310 | stores the expected running version as cancelled with reason and time, with its event; or changes nothing |
| Repository.Repository.CreateTask | internal/workflow/repository.go:362-413 | keeps and returns an existing task of the node; else moves the running instance, adds task and event together and returns the new task, and a late failure undoes the move |
| Repository.Repository.UpdateInstanceNode | internal/workflow/repository.go:415-437 | puts a running instance at the node, with one more version unless it is there already, and refuses any other instance unchanged |
| Repository.Repository.FinishInstance | internal/workflow/repository.go:439-477 | stores status, result, message and time in a running instance, with its event; accepts a repeated finish without a change, and refuses a different ending |
| Repository.Repository.ClaimTask | internal/workflow/repository.go:479-503 | stores the expected pending version as claimed by the actor, with its history row; or changes nothing |
| Repository.Repository.CompleteTask | internal/workflow/repository.go:520-559 | stores decision, comment, output and time in the version that was read, with history row and event; or changes nothing, also when the read back after the update finds no row |
| Repository.Repository.DelegateTask | internal/workflow/repository.go:561-585 | stores the version that was read as pending for the delegate alone, with its history row, and returns it; a version conflict exactly when that version is not open to the actor; an error comes with a change if and only if the write committed and the read back failed |
| Repository.Repository.DeleteTaskHistoryBefore | internal/workflow/repository.go:49-64 | deletes the oldest history rows of instances that ended before the cutoff, at most the limit, and leaves none when there are fewer |
| Operations.WorkflowService.AuthorizedTask | internal/workflow/service.go:401-437 | answers the stored task if and only if the caller has access, no one else holds it, and it is assigned to the caller, to a role of the caller, or to an expression the caller may act on |
| Operations.WorkflowService.ClaimTask | internal/workflow/service.go:363-372 | runs the claim exactly when the caller was authorized on the expected version, and else changes nothing |
| Operations.WorkflowService.CompleteTask | internal/workflow/service.go:374-388 | runs the completion exactly when the caller was authorized on the expected version, the decision is known and the output is JSON; stores the trimmed comment and the output |
| Operations.WorkflowService.DelegateTask | internal/workflow/service.go:390-399 | runs the delegation exactly when the caller was authorized on the expected version and delegate and reason are not blank and the delegate is not the caller; assigns it to the trimmed delegate |
| Operations.WorkflowService.CreateDefinition | internal/workflow/service.go:69-96 | runs the insertion exactly for a caller with access and a valid definition, and stores it as a draft with trimmed texts |
| Operations.WorkflowService.UpdateDefinition | internal/workflow/service.go:103-129 | runs the update exactly for a caller with access, a version and a valid definition under the key that was read, and stores exactly the given texts, trimmed, and graph |
| Operations.WorkflowService.PublishDefinition | internal/workflow/service.go:131-150 | runs the publication exactly for a caller with access, a version and a valid definition as read, and succeeds exactly when something changes |
| Operations.WorkflowService.DisableDefinition | internal/workflow/service.go:152-164 | runs the update exactly for a caller with access and a version |
| Operations.WorkflowService.StartInstance | internal/workflow/service.go:226-253 | runs the insertion exactly for a caller with access and well-formed keys, title and variables; the row has the caller as its starter, the given variables and the revision that was read |
| Operations.WorkflowService.CancelInstance | internal/workflow/service.go:255-267 | runs the cancellation exactly for a caller with access, a version and a reason that is not blank |
| Text.TrimIs | internal/workflow/service.go:90 | trimming cuts the white space off both ends and nothing else |
| LedgerProofs.ReadIsCurrent | internal/workflow/repository.go:531-535 | equal version means equal row: a compare-and-set on the version acts on exactly the row that was read |
| LedgerProofs.KeepsInv | internal/workflow/repository.go:66-585 | every operation, with whatever stale read, committed or not, keeps the invariants of definitions, instances, tasks, history and outbox |
| LedgerProofs.ActionEvolves | internal/workflow/repository.go:66-585 | no operation takes back a revision, a launch, an ending, a decision or an event, or lowers a version |
| LedgerLaws.InstanceLaw | internal/workflow/repository.go:283-310 | an instance leaves running at most once and its row is frozen afterwards; it has a finish time, and exactly one ending event, exactly when it has ended |
| LedgerLaws.EndedTakesNoTask | internal/workflow/repository.go:375-397 | no task row is added to an instance that has ended |
| LedgerLaws.DefinitionLaw | internal/workflow/service.go:69-150 | every stored definition and revision is valid although publication validates a possibly older read; the published revision counts the revision rows and is 0 exactly for a draft |
| LedgerLaws.PinLaw | internal/workflow/service.go:226-253 | an instance pins a revision that never changes, and its one start event carries exactly that revision |
| LedgerLaws.OutboxLaw | internal/workflow/repository.go:84-129 | a fact (revision, start, cancellation, other ending, task, decision) holds if and only if the outbox has its event, never twice, and every event agrees with its row |
| LedgerLaws.HistoryLaw | internal/workflow/repository.go:479-585 | version minus one history rows were written for a task and lead from pending to its status; every row ever written is stored unchanged until a retention pass deletes it as expired, and no other row is stored |
| LedgerLaws.RecordLaw | internal/workflow/repository.go:479-585 | every successful claim, completion or delegation writes exactly one history row with its actor, action, detail and the two statuses; no other step writes one |
| LedgerLaws.AuthorisedLaw | internal/workflow/service.go:363-437 | a successful claim, completion or delegation found the very row that was read, unclaimed or claimed by the actor, and assigned to the actor, to a role the actor holds or to an expression the actor may act on; it changes that row alone |
| AccessLaws.OperationLaw | internal/workflow/repository.go:479-585 | an operation on a task succeeds if and only if it commits under a new history identifier while the row is still the very one that was read and is open to it |
| AccessLaws.DelegationLaw | internal/workflow/repository.go:561-585 | after a successful delegation the next successful operation on the task is one of the delegate |
| AccessLaws.AssigneeLaw | internal/workflow/repository.go:479-585 | only a delegation changes whom a task is assigned to; its name, node, instance and input never change |
| AccessLaws.DelegatesToSelf | internal/workflow/service.go:395 | a delegation to oneself is refused as such, but goes through with white space around the name |
| AccessLaws.TenantLaw | internal/workflow/repository.go:66-585 | an operation changes, adds and announces only rows of its own tenant and application |
| AccessLaws.UniqueLaw | migrations/postgres/000003_application_scope.up.sql:23-26 | in every reachable state no two definitions share a key, and no two instances an idempotency key, or a business key of one definition |
| AccessLaws.StartOnceLaw | internal/workflow/repository.go:251-272 | however often a start is retried under one idempotency key, one instance results |
| AccessLaws.SeenLaw | internal/workflow/service.go:412-415 | the rows an operation may have read are exactly the rows that were stored at some time |
| EffectLaws.CreateLaw | internal/workflow/repository.go:66-72 | a definition is created if and only if its identifier and key are new, and nothing else changes |
| EffectLaws.UpdateLaw | internal/workflow/service.go:103-129 | a definition is updated if and only if it is still a draft of the expected version, and then has exactly the trimmed texts and the graph that were given |
| EffectLaws.PublishLaw | internal/workflow/repository.go:84-129 | a definition is published if and only if it is still a draft of the expected version; its revision is always new and holds the content stored then |
| EffectLaws.DisableLaw | internal/workflow/repository.go:131-139 | a definition is disabled if and only if it is published under the expected version |
| EffectLaws.LaunchLaw | internal/workflow/service.go:226-253 | a start succeeds if and only if its keys are new; it stores the given starter and variables and requests a run of exactly the pinned revision for exactly this instance |
| EffectLaws.CancelLaw | internal/workflow/repository.go:283-310 | an instance is cancelled if and only if it is running under the expected version; row and event carry the reason |
| EffectLaws.ConcludeLaw | internal/workflow/repository.go:439-477 | a finish changes an instance if and only if it is running, and gives it status, result and message |
| EffectLaws.MoveLaw | internal/workflow/repository.go:415-437 | an instance is moved if and only if it is running elsewhere, and then stands at the node |
| EffectLaws.NewTaskLaw | internal/workflow/repository.go:362-413 | a task is added if and only if its instance is running and has none for the node; the instance then stands at the node and the task is announced |
| EffectLaws.PurgeLaw | internal/workflow/repository.go:49-64 | retention deletes only history rows of instances that had ended before its cutoff, and touches nothing else |
| LedgerLaws.ClaimLaw | internal/workflow/repository.go:486-490 | while an actor holds the claim, the row does not change until an operation of that actor on the task succeeds, however many attempts of that actor or others fail before |
| LedgerLaws.CompletionLaw | internal/workflow/repository.go:531-535 | a task is completed at most once and no operation on it succeeds afterwards |
| LedgerLaws.LockLaw | internal/workflow/repository.go:697-709 | of two operations that expect the same version of the same definition, instance or task, at most one succeeds |
| LedgerLaws.TaskCreationLaw | internal/workflowruntime/activities.go:45-67 | of any number of attempts to create the task of one instance and node, whatever happens in between, only one changes anything |
| LedgerLaws.TaskCreationRaisesOnce | internal/workflow/repository.go:362-413 | any number of attempts to create the task of one instance and node, interleaved with any task operations, raise the instance version by at most one, only together with the task, and leave at most one row |
| LedgerLaws.SlotEventLaw | internal/workflow/repository.go:362-413 | an instance and node have a task-created event if and only if they have a task row |
| LedgerLaws.TaskEventLaw | internal/workflow/repository.go:362-413 | there is at most one task-created event for an instance and node |
| ProtocolProofs.StepKeeps | internal/workflowruntime/commands.go:48-118 | every step of the engine keeps the invariant that joins database, runs, mailboxes, attempts and upstream calls, and takes nothing back |
| ProtocolLaws.PinnedLaw | internal/workflowruntime/commands.go:64-85 | the run of an instance executes its pinned revision, which is valid, however often its start event is delivered |
| ProtocolLaws.CancellationLaw | internal/workflow/repository.go:283-310 | once a cancellation has committed, the instance stays cancelled, gains no task, no later begun service attempt calls upstream, and a run that ends raises an error with exactly the saga compensations |
| ProtocolLaws.RefusalLaw | internal/workflowruntime/commands.go:87-103 | a wait or a timer of a run is refused only when the instance is cancelled in the database |
| ProtocolLaws.AgreementLaw | internal/workflowruntime/activities.go:131-140 | a run that returned completed or rejected agrees with the stored status and result from then on |
| ProtocolLaws.CompletedLaw | internal/workflow/repository.go:439-477 | the database says completed only where the run reached an end node with every approval on the way stored as approved |
| ProtocolLaws.DecisionLaw | internal/workflowruntime/workflow.go:117-126 | the decision and output a wait receives are those stored in the only task row of that instance and node |
| ProtocolLaws.AssignmentLaw | internal/workflowruntime/activities.go:45-60 | every task is for an approval of the pinned revision, with its name and the variables as input; it was first assigned as the node says, to the starter where it says so, and is now assigned to whom it was last delegated to, if ever |
| ProtocolLaws.FirstAssignmentLaw | internal/workflowruntime/activities.go:47-50 | a task as first stored has the assignee of its node, or the starter of its instance where the node says so |
| ProtocolLaws.GuardLaw | internal/workflowruntime/activities.go:69-73 | an attempt of a service task is admitted if and only if its instance is running and the move commits and is reported; then the instance stands at that node |
| DeliveryLaws.StartLaw | internal/workflowruntime/commands.go:64-85 | a run exists from the delivery of its start on, and not without one |
| DeliveryLaws.CancelRequestLaw | internal/workflowruntime/commands.go:87-103 | cancellation is requested of a run exactly when a cancellation was delivered to it, and then for good |
| DeliveryLaws.CancelReachesRun | internal/workflowruntime/commands.go:87-103 | once a cancellation was delivered to a run, its waits and timers can be refused from then on, and a refused run compensates or reports its failure |
| DeliveryLaws.MailLaw | internal/workflowruntime/commands.go:105-118 | what a run has received, followed by its mailbox, is exactly what was delivered to it, as the rows were stored, in order and with every duplicate |
| ProtocolLaws.WaitLaw | internal/workflowruntime/workflow.go:110-117 | whenever a run waits, or has waited, for the decision of a node, the task to be decided is in the database |
| ProtocolLaws.SwallowLaw | internal/workflowruntime/workflow.go:117-119 | a wait that drops the signal of another node drops a duplicate of one that this node's own wait consumed, and that node is never waited for again |
| ProtocolLaws.ServiceLaw | internal/workflowruntime/activities.go:69-83 | an upstream service is called only at the end of a path from the start node on which every approval is stored as approved |
| ProtocolLaws.CompensationLaw | internal/workflowruntime/activities.go:85-98 | a compensation is called upstream only after a forward call of the same service by the same run |
| ProtocolLaws.ReturnedCompensatesNothing | internal/workflowruntime/workflow.go:92-95 | a run that has returned has made no compensation call upstream and never makes one |
| ReliableLaws.UndoneLaw | internal/workflowruntime/workflow.go:92-154 | the exact condition: the run of an instance stored as completed or rejected compensates, reports failure or has raised if and only if its own finish got a reply other than success; it asks for a compensation if and only if, besides, it completed a service that has one |
| ReliableLaws.CompletedIsKept | internal/workflowruntime/workflow.go:92-105 | if no finish attempt of this instance outlives its call and its finish is reported as failed only when it did not commit, whatever happens to other instances, an instance that is stored as completed or rejected is never compensated upstream, before or after |
| ReliableLaws.LostReportUndoes | internal/workflowruntime/workflow.go:202-207 | without that the same is false: from every state in which a run with a service to compensate has begun its completed finish, one lost report and one failed reply lead to an instance stored as completed and about to be compensated |
| LostReport.CompletedIsUndone | internal/workflowruntime/workflow.go:202-207 | for every setting there is a behaviour from the empty store that ends with an instance stored as completed whose run asks for a compensation |
| Completion.CompletionLaw | internal/workflowruntime/workflow.go:69-170 | from every reachable state, whatever was lost, duplicated or delayed, a running instance whose run has not failed can be brought to an end that run and database agree on, and to a completion if none of its tasks was rejected |
| Completion.StartedCanComplete | internal/workflowruntime/commands.go:64-85 | every launched instance whose start has not yet arrived can be completed |
| Completion.CanFail | internal/workflowruntime/workflow.go:110-145 | a wait can time out, and an activity of the forward run can fail, at any moment; the run then undoes its work |
| Completion.FailureLaw | internal/workflowruntime/workflow.go:92-105 | a run that has failed can end, with its instance stored as failed |
| Cleaner.RetentionCleaner.Clean | internal/workflow/cleanup.go:63-76 | on a quiet store, with a cutoff computed anew for every call, it deletes only rows expired at the cutoff of some call and ends when none is expired at the last cutoff, after D / b + 1 calls for D deleted rows and batch size b; under one cutoff these are exactly the expired rows, oldest first; a failing call ends it after whole batches |
| Retention.BatchExists | internal/workflow/repository.go:51-52 | there is always a batch: the first rows by creation time and identifier, as many as the limit allows |
| Roles.RoleIDs | internal/workflowauth/resolver.go:33-58 | over a stable list it returns the roles of exactly the bindings that are active and name one, in order, in as many calls as pages of 200 cover the list, and one for an empty list; another tenant is refused without a call |

## Left out

- ProtocolLaws.CancellationLaw: an attempt that passed its guard before the cancellation may still call upstream; the law speaks of attempts that begin afterwards, as the guard allows no more.
- LedgerLaws.InstanceLaw: does not say that tasks close with their instance, because cancellation does not touch tasks and no code writes the task statuses cancelled and expired.
- Order of `current_node_id` along the path: an old overlapping attempt can move it back while the instance runs; only its freezing after the end is proved.
- Audit columns, timestamps other than finish, completion and history times, due dates, error codes and the texts of error messages.
- 64-bit overflow of versions and 32-bit overflow of revision numbers; both count single writes.
- CEL evaluation, request templates and JSON encoding: conditions and upstream responses are arbitrary, and the stored graph is read back as it was written.
- Real time: a wait may time out at any moment, a timer may fire at any moment, and retry policies allow any number of attempts.
- When `AwaitWithTimeout` evaluates its condition: the model takes waiting signals one by one in order of arrival, at any speed.
- The bus, the outbox dispatcher and the idempotency manager: only at-least-once delivery in any order and one workflow per identifier.
- The internals of the authorization service, principals and application verification: their answers are part of `Env`.
- List queries, filters, page normalisation, transports, configuration, logging and the goroutine around the cleaner: settled by reading one branch.
- The read of the instance after the commit of the service's `CompleteTask` (internal/workflow/service.go:386): the model has the task it returns, not the instance.
