# Control plane of the game-server panel

A model of how the panel's API, its worker and its node agents change shared state, and proofs of
what holds whatever the interleaving and whatever the network does.

**Job protocol.** `Rows` and `Repositories` hold the tables and what each repository call and each
foreign key does to them; `Agent` the containers and published objects behind the node agents and
the effect of each request; `Jobs` one function for every transaction a job commits and for every
answer it reacts to. `Protocol` makes a step machine of it: one step per API request, per committed
transaction, per HTTP attempt and per exception under a `try`, in any order. An attempt may be
executed or not and, independently, be answered, be lost or come back as a 5xx; Docker refuses a
second container of the same name. A request that was not executed when its client gave up may still
be carried out at any later moment. `JobInvariant`, `CoreInvariant`, `ContainerInvariant`,
`ContainerSteps`, `BackupInvariant`, `AuditInvariant` and `Capacity` show what every step keeps;
`AgentReplies`, `JobStages` and `RequestEffects` say in full what an answer, a transaction and a
request change and when, with every status and code written out, and what a recorded success rests on;
`Runs`, `Placement`, `TaskMachine`, `BackupSafety`, `DeleteSafety`, `Outcomes`, `AuditLog` and
`Overcommit` draw the conclusions for every run and every reachable state. `Unhindered` shows that a
job that meets no obstacle runs through, and `Witnesses` puts such jobs together into the runs that
show where a guarantee ends. `NodeSelector` is the placement query.

The same system in the form the source has it: `Store` is the session with its repository methods,
`JobTransactions` the stages of the jobs, each method proved to leave the tables and the job's locals
as the function of the same stage says, `Api` the service methods, `Worker` the running system
whose every method is one step of the machine, and `Scheduler` a job run to its end while any number
of other steps happen between its own. `Retrying` is the client's retry loop.

**Backup streaming** (`BackupStreaming`): the chunk-to-part loop, multipart completion and abort, and
the download loop, over every pattern of failing receives, sends and calls.

**Refresh tokens** (`RefreshTokens`) and **membership** (`Membership`, `Access`): the services as
classes, and their runs as step machines. The request session rolls back when a service raises
(`api/v1/deps.py`), so the reuse results hold for a caller that commits.

Findings, each with the exact condition under which the guarantee holds and a run that breaks it
otherwise:

- A provision job that begins before the request that queued it has committed finds no task row; its
  task can then end without `started_at` (`TaskMachine.FinishedWasStarted`).
- A delete job that read no container in its first transaction skips the agent even if a placement is
  recorded before it removes the row; and one whose node row has been given another endpoint takes the
  404 of the wrong agent for a confirmation (`DeleteSafety.DeleteConfirms`).
- A start or restart counts a server on its node again without asking for capacity, so a node can
  carry twice its capacity with provisions strictly one after another (`Overcommit.RunWithinCeiling`,
  `Overcommit.StartsOvercommit`).
- A create request carried out late can make a second container after the first was removed
  (`Placement.OneContainerEver`), and a backup attempt carried out late overwrites the object of an
  available backup (`BackupSafety.RecordedObject`).

Conventions: identifiers are natural numbers, a step that creates a row takes a new one; CPU is a
`real`, memory an `int`; time is a natural number that never goes back; a generated token is new and
stands for its hash; row versions, names, hosts, ports and environment are not represented.

## Model

| member | source | states |
|---|---|---|
| `Runs.RunKeepsInvariant` | apps/worker/src/gamehost_worker/jobs/provision.py:20-81 | every interleaving of API requests, committed worker transactions, HTTP attempts and exceptions keeps the joint invariant of job locals, task rows, foreign keys, containers, placements, backups, audit log and resources in flight |
| `Placement.RunningIsPlaced` | apps/api/src/gamehost_api/repositories/servers.py:58-94 | in every reachable state a running or stopped server has a container, made in time for this server by its provision job; a recorded node exists and, unless its endpoint was patched, has the agent that made it |
| `Placement.PlacedOnItsAgent` | apps/api/src/gamehost_api/domain/nodes.py:37-44 | that the container of a placed server is on the agent of its node holds over all runs if and only if the endpoint of the node is never patched |
| `Placement.ContainerIsForever` | apps/api/src/gamehost_api/repositories/servers.py:74-98 | over any run a set container id is neither cleared nor exchanged while the row exists, and a removed row never comes back |
| `Placement.OneContainer` | apps/worker/src/gamehost_worker/clients/node_agent_client.py:35-55 | however often create requests are repeated after lost answers, and even when the agent carries one out after its client gave up: no server has two containers at a time, at most one is ever made in time, and the recorded id is that one |
| `Placement.OneContainerEver` | apps/worker/src/gamehost_worker/clients/node_agent_client.py:39-43 | that a server only ever gets one container holds over all runs if and only if no create request is carried out after its client gave up |
| `Outcomes.SucceededMeans` | apps/worker/src/gamehost_worker/jobs/delete.py:52-63 | in every reachable state the server of a succeeded delete task is gone, and the server of a succeeded provision task, while it exists, has its container recorded |
| `AgentReplies.DoneBy200` | apps/worker/src/gamehost_worker/clients/node_agent_client.py:65-93 | an action, a backup or a restore is done if and only if a 200 arrives; otherwise the request is repeated, on the first two attempts and after a 5xx, a failed connect or a read timeout, or the job fails |
| `AgentReplies.CreatedBy201` | apps/worker/src/gamehost_worker/clients/node_agent_client.py:51-55 | a create goes on to inspect the container the answer names if and only if a 201 arrives; otherwise again or failing as above |
| `AgentReplies.InspectedBy200` | apps/worker/src/gamehost_worker/clients/node_agent_client.py:57-63 | an inspection goes on to the placement if and only if a 200 arrives; otherwise again or failing |
| `AgentReplies.RemovedBy204Or404` | apps/worker/src/gamehost_worker/clients/node_agent_client.py:95-100 | a removal is confirmed if and only if a 204 or a 404 arrives; otherwise again or failing |
| `AgentReplies.ServeInFull` | apps/node_agent/src/gamehost_node/domain/exceptions.py:11-38 | an agent that can do what is asked changes exactly that and answers 201, 204 or 200; one that cannot changes nothing and answers 409, 404 or 503 |
| `AgentReplies.AttemptInFull` | apps/worker/src/gamehost_worker/clients/node_agent_client.py:35-49 | an attempt changes no row and no other job; the agent changes if and only if the request reached it in time and it could do it; a request that did not reach it is left behind on its way |
| `AgentReplies.AttemptSucceeds` | apps/worker/src/gamehost_worker/clients/node_agent_client.py:35-100 | whatever the network does, one attempt completes its request if and only if the answer of the agent itself arrives and the agent could do what was asked, or had nothing to remove |
| `AgentReplies.LateInFull` | apps/worker/src/gamehost_worker/clients/node_agent_client.py:39-43 | a request carried out late has the effect it would have had in time, marked late, and changes no row and no job |
| `AgentReplies.OnlyAnswersClose` | apps/worker/src/gamehost_worker/jobs/_lifecycle.py:50-63 | a start, stop, restart, backup or restore comes to its success transaction only by an attempt that an agent answered because it held the container, the volume or the object |
| `AgentReplies.ClosingWasAnswered` | apps/worker/src/gamehost_worker/jobs/_lifecycle.py:50-63 | over any run, when such a job is about to record its success, an earlier attempt of it was so answered, for the container the job had read |
| `AgentReplies.OnlyClosingSucceeds` | apps/worker/src/gamehost_worker/jobs/restore.py:59-75 | no step makes such a task succeeded but the last transaction of its own job |
| `AgentReplies.SucceededWasAnswered` | apps/worker/src/gamehost_worker/jobs/backup.py:55-73 | over any run, behind every start, stop, restart, backup and restore task that succeeded there is an attempt of its job that an agent answered because it could do what was asked, and the task was marked only after that |
| `AgentReplies.PlacedWasCreated` | apps/worker/src/gamehost_worker/jobs/provision.py:51-61 | over any run, a provision is about to record a container only after an agent made it for this server and answered, and after that one answered that it has it |
| `JobStages.ProvisionBegins` | apps/worker/src/gamehost_worker/jobs/provision.py:27-29 | a provision marks its task running, whatever the state of its server, and notes that there is none if the request is not committed |
| `JobStages.LifecycleBegins` | apps/worker/src/gamehost_worker/jobs/_lifecycle.py:28-48 | a start, stop or restart goes on if and only if its task names a server with node and container, and then asks the recorded agent for its own action on that container; which task is failed and which only marked running otherwise; nothing else changes |
| `JobStages.DeleteBegins` | apps/worker/src/gamehost_worker/jobs/delete.py:25-39 | a delete succeeds at once if and only if the server row is gone; it skips the agent if and only if the row lacks node or container |
| `JobStages.BackupBegins` | apps/worker/src/gamehost_worker/jobs/backup.py:27-61 | a backup goes on if and only if its task names a server with node and container, in any status, and its backup row exists, and then asks the recorded agent for that container and volume under the key of the row; otherwise task and backup fail; nothing else changes |
| `JobStages.RestoreBegins` | apps/worker/src/gamehost_worker/jobs/restore.py:27-65 | a restore goes on under the same condition and only for a stopped server; otherwise the task fails and the backup is left alone |
| `JobStages.ProvisionChooses` | apps/worker/src/gamehost_worker/jobs/provision.py:32-52 | a provision asks the chosen node for a container of the server if and only if task, server row and choice are there; the server is provisioning then, and unchanged otherwise |
| `JobStages.DeleteLooksUp` | apps/worker/src/gamehost_worker/jobs/delete.py:42-47 | a delete asks the agent of the node for the removal if and only if the node row is there, and changes no row |
| `JobStages.MissingNodeFails` | apps/worker/src/gamehost_worker/jobs/backup.py:48-53 | a missing node row fails the task, and of a backup job the backup, and logs nothing |
| `JobStages.ProvisionPlaces` | apps/worker/src/gamehost_worker/jobs/provision.py:54-68 | node, container, status and one log row are written together if and only if server row and node row are there; every other row stays |
| `JobStages.ProvisionCloses` | apps/worker/src/gamehost_worker/jobs/provision.py:70-72 | the last transaction of a provision marks the task and nothing else |
| `JobStages.LifecycleCloses` | apps/worker/src/gamehost_worker/jobs/_lifecycle.py:54-63 | a start or restart leaves its server running, a stop leaves it stopped; the task has succeeded, one row is logged, every other row stays |
| `JobStages.DeleteCloses` | apps/worker/src/gamehost_worker/jobs/delete.py:52-63 | the server row and all backups of it go, exactly the tasks that named it lose its id, its own task has succeeded, every other row stays |
| `JobStages.DeleteClosesGone` | apps/worker/src/gamehost_worker/jobs/delete.py:52-63 | with the server row gone already only the task and the log change |
| `JobStages.BackupCloses` | apps/worker/src/gamehost_worker/jobs/backup.py:63-72 | exactly the backup of the job becomes available, with the size the agent answered, together with task and log |
| `JobStages.RestoreCloses` | apps/worker/src/gamehost_worker/jobs/restore.py:67-75 | only the task and the log change |
| `JobStages.ProvisionFails` | apps/worker/src/gamehost_worker/jobs/provision.py:74-80 | a failed provision marks its server failed if it knew it, and its task; nothing is logged |
| `JobStages.BackupFails` | apps/worker/src/gamehost_worker/jobs/backup.py:74-85 | a failed backup marks backup and task and is logged |
| `JobStages.OthersFail` | apps/worker/src/gamehost_worker/jobs/_lifecycle.py:65-69 | any other failure marks the task and touches nothing else: the server keeps its status |
| `JobStages.ThrowsUnderTry` | apps/worker/src/gamehost_worker/jobs/provision.py:31-74 | an exception leads to the failure handler from every stage but the first transaction, the two that record a failure, and the end, and changes no row |
| `TaskMachine.StepMovesTask` | apps/api/src/gamehost_api/repositories/tasks.py:29-52 | no step moves a task backwards, none changes a finished one except for the server_id a deleted server takes away, and finished_at is set exactly on finished tasks |
| `TaskMachine.FinishedIsFinal` | apps/api/src/gamehost_api/repositories/tasks.py:37-52 | over any run a finished task keeps status, timestamps and payload for ever |
| `TaskMachine.StartedUnlessEarly` | apps/api/src/gamehost_api/repositories/tasks.py:29-35 | a finished task has started_at set if and only if its job did not begin before the task was committed; only a provision can finish unstarted |
| `TaskMachine.FinishedWasStarted` | apps/api/src/gamehost_api/domain/servers.py:99-107 | that finished tasks were started holds over all runs if and only if the job does not run ahead of the commit; a concrete run shows the other case |
| `TaskMachine.EndedJobs` | apps/worker/src/gamehost_worker/jobs/_lifecycle.py:28-70 | which tasks a finished job leaves open: a job that found its server always finishes its task; a start, stop, restart or delete does so only then; the other kinds do unless they ran ahead of the commit |
| `TaskMachine.StepShortens` | apps/worker/src/gamehost_worker/jobs/_lifecycle.py:50-70 | each transaction, attempt or exception of a job brings it closer to its end, and no step of anyone else touches it |
| `TaskMachine.JobsEnd` | apps/worker/src/gamehost_worker/jobs/provision.py:27-81 | in any run a job takes at most 13 steps, and after 13 it is over |
| `BackupSafety.BackupFollowsTask` | apps/worker/src/gamehost_worker/jobs/backup.py:27-86 | in every reachable state a backup is creating, available or failed exactly as its task is open, succeeded or failed, and an available one has an object taken from its own server, of the recorded size unless a late request rewrote it |
| `BackupSafety.AvailableIsForever` | apps/api/src/gamehost_api/repositories/backups.py:42-58 | over any run an available backup row never changes while it exists and never comes back once removed; its object stays published from the same volume and stays the same object unless the agent carries out an earlier attempt late |
| `BackupSafety.RecordedObject` | apps/worker/src/gamehost_worker/jobs/backup.py:57-64 | that the object of an available backup has the recorded size holds over all runs if and only if no backup request is carried out after its client gave up |
| `BackupSafety.BackupAsksForOwnVolume` | apps/worker/src/gamehost_worker/jobs/backup.py:27-61 | in every reachable state a queued backup job goes on if and only if its task still names its server, the server has node and container and the backup row exists; it asks the recorded node, whose row exists, for its own volume under {server}/{backup}; otherwise task and backup have failed |
| `BackupSafety.RestoreReadsAvailable` | apps/worker/src/gamehost_worker/jobs/restore.py:27-51 | a restore job goes on after its first transaction if and only if the server is there, stopped and placed and the backup row is there; what it then reads is an available backup of the same server, published from the volume it restores to |
| `BackupSafety.RestoreTargetsOwnVolume` | apps/worker/src/gamehost_worker/jobs/restore.py:59-65 | while a restore waits for the agent, the object it asked for stays published and stays one taken from the volume it restores to, even if the backup row goes |
| `DeleteSafety.RowGoesAfterContainer` | apps/worker/src/gamehost_worker/jobs/delete.py:41-63 | whatever answers are lost or late: a placed server row vanishes only in the last transaction of its delete job, and if that job read a container at its start, it is the recorded one and gone from its agent, if only the job asked that agent, which it did unless the endpoint of the node was patched |
| `DeleteSafety.RemovalConfirmed` | apps/worker/src/gamehost_worker/clients/node_agent_client.py:95-100 | a delete job goes on to remove the row if and only if an answer 204 or 404 arrives |
| `DeleteSafety.UnconfirmedKeepsRow` | apps/worker/src/gamehost_worker/jobs/delete.py:65-70 | the failure handler of a delete keeps every server row and marks the task failed |
| `DeleteSafety.DeleteConfirms` | apps/worker/src/gamehost_worker/jobs/delete.py:37-50 | no delete ever removes a row whose recorded container is live, over all runs, if and only if its first transaction read a container and the agent it then asked is the one that made it; concrete runs show both other cases |
| `Witnesses.PlacedDuringDelete` | apps/worker/src/gamehost_worker/jobs/delete.py:42-55 | a reachable state in which a delete that read no container is about to remove a row whose container is live |
| `Witnesses.RemovedElsewhere` | apps/worker/src/gamehost_worker/jobs/delete.py:43-50 | a reachable state in which a delete took the 404 of the agent at a patched endpoint for a confirmation |
| `Witnesses.CreatedAgain` | apps/worker/src/gamehost_worker/clients/node_agent_client.py:39-43 | a reachable state in which a lost create request, carried out after the container was removed, has made a second one |
| `Witnesses.OverwrittenLate` | apps/worker/src/gamehost_worker/clients/node_agent_client.py:73-82 | a reachable state in which the first attempt of a backup has overwritten the object the second one was recorded with |
| `Witnesses.FailedUnstarted` | apps/worker/src/gamehost_worker/jobs/provision.py:27-29 | a reachable state in which a provision task has failed without ever having been started |
| `AuditLog.AuditAccounts` | apps/worker/src/gamehost_worker/jobs/_lifecycle.py:54-63 | in every reachable state request rows equal the tasks created and completion rows the tasks succeeded, kind by kind; for provisions completion rows are at least the succeeded tasks |
| `AuditInvariant.StepKeepsAudit` | apps/worker/src/gamehost_worker/jobs/restore.py:67-75 | every step keeps the log in balance with the task table |
| `Overcommit.RunWithinCeiling` | apps/worker/src/gamehost_worker/jobs/provision.py:43-68 | over any run with at most k provisions in flight, each for at most r: what is accounted to each node, running and in flight, stays within capacity + (k-1) * r in CPU and memory if and only if every start that revives a server finds room for it and every patch leaves its node enough |
| `Overcommit.OneAtATime` | apps/worker/src/gamehost_worker/jobs/provision.py:43-48 | with one provision in flight at a time no node is ever over-committed, under the same condition and only then |
| `Overcommit.TenJobs` | apps/worker/src/gamehost_worker/main.py:44 | with the ten job slots of a worker a node is over-committed by at most nine requests, under the same condition and only then |
| `Overcommit.LoadInFull` | apps/worker/src/gamehost_worker/jobs/provision.py:43-68 | what is accounted to a node is the sum over its provisioning and running servers and over the provisions that wait for its agent or are about to record a container there |
| `Overcommit.StartsOvercommit` | apps/worker/src/gamehost_worker/jobs/_lifecycle.py:54-55 | a run without two provisions in flight at once that ends with twice the capacity of its only node accounted to it |
| `Capacity.RevivalAddsAll` | apps/worker/src/gamehost_worker/jobs/_lifecycle.py:54-55 | starting a server that is not counted adds all it asks for to the load of its node and changes no other load |
| `Capacity.RevivalCeiling` | apps/worker/src/gamehost_worker/jobs/_lifecycle.py:54-55 | a start that revives a server keeps the ceiling if and only if the load with that server stays within it |
| `Capacity.PatchCeiling` | apps/api/src/gamehost_api/domain/nodes.py:37-44 | a patch of a node keeps the ceiling if and only if it leaves enough for what the node carries |
| `Capacity.StepCeiling` | apps/worker/src/gamehost_worker/jobs/provision.py:43-68 | every step keeps the ceiling if and only if it is affordable; only a reviving start and a patch of a node can fail to be |
| `Capacity.SelectWithinCeiling` | apps/api/src/gamehost_api/domain/node_selector.py:12-28 | choosing a node keeps the ceiling although the query does not see the other provisions in flight |
| `Capacity.PlaceWithinCeiling` | apps/worker/src/gamehost_worker/jobs/provision.py:54-68 | recording a placement moves a load from in flight to running without raising it |
| `Capacity.PatchKeepsAsks` | apps/api/src/gamehost_api/domain/servers.py:136-148 | a patch never changes the resources of a server whose provision is in flight |
| `NodeSelector.AggregateSums` | apps/api/src/gamehost_api/domain/node_selector.py:14-22 | grouping and summing the rows in any order gives what the counted servers of each node use |
| `NodeSelector.ScanIsLeast` | apps/api/src/gamehost_api/domain/node_selector.py:23-27 | the scan returns a node if and only if one fits, and then one whose used CPU divided by its capacity is least among all that fit, a node without CPU capacity first |
| `NodeSelector.SelectIsLeastLoaded` | apps/api/src/gamehost_api/domain/node_selector.py:9-32 | aggregate and scan together answer as the tables demand, whatever the row order |
| `NodeSelector.SelectInFull` | apps/api/src/gamehost_api/domain/node_selector.py:12-28 | with the used sums, the room left and the division written out: a node is returned if and only if an online one has room in CPU and memory beside its provisioning and running servers, and it has the least used/capacity in CPU of those |
| `Worker.LeastLoadedNode` | apps/api/src/gamehost_api/domain/node_selector.py:9-32 | the query over the current tables returns a least loaded fitting node or finds that none fits |
| `Retrying.Client.Retry` | apps/worker/src/gamehost_worker/clients/node_agent_client.py:35-49 | at most n requests; the result is that of the first attempt that settles or else of the last one; total back-off is at most (2^n - 1)/2 seconds; the closing assertion fails if and only if n is 0 |
| `Retrying.MachineIsLoop` | apps/worker/src/gamehost_worker/clients/node_agent_client.py:37-47 | the attempts of the step machine end where the loop ends and give what it returns, for all outcomes |
| `Retrying.FollowIsRetry` | apps/worker/src/gamehost_worker/clients/node_agent_client.py:35-49 | deciding attempt by attempt from any point reaches the deciding attempt and its result |
| `JobTransactions.ProvisionRecord` | apps/worker/src/gamehost_worker/jobs/provision.py:54-68 | placement and audit row recorded together, or neither when the server row or the node is gone |
| `JobTransactions.Succeed` | apps/worker/src/gamehost_worker/jobs/delete.py:52-63 | the last transaction of each kind of job |
| `JobTransactions.HandleFailure` | apps/worker/src/gamehost_worker/jobs/backup.py:74-86 | the failure handler of each kind of job |
| `Worker.Panel.constructor` | apps/worker/src/gamehost_worker/main.py:44 | the empty installation is a reachable state |
| `Worker.Panel.Transact` | apps/worker/src/gamehost_worker/jobs/provision.py:20-81 | committing a job's next transaction in place is exactly one step of the machine and keeps the state reachable |
| `Worker.Panel.Attempt` | apps/worker/src/gamehost_worker/clients/node_agent_client.py:35-49 | one HTTP attempt, executed or not, answered or not, is exactly one step of the machine; one not executed may still be on its way |
| `Worker.Panel.ServeLate` | apps/worker/src/gamehost_worker/clients/node_agent_client.py:39-43 | a request carried out after its client gave up changes the agent and no row and no job |
| `Worker.Panel.Throw` | apps/worker/src/gamehost_worker/jobs/backup.py:74-76 | an exception under try leads to the failure handler and changes no row |
| `Scheduler.RunJob` | apps/worker/src/gamehost_worker/jobs/provision.py:20-81 | a job runs to its end under any interference: its task is finished if it found its server, a succeeded delete left no row, a succeeded provision left the container recorded, and the backup row says what the task says |
| `Scheduler.Others` | apps/api/src/gamehost_api/domain/servers.py:167-168 | any number of steps of anyone else leave a job's locals alone and the state reachable |
| `Api.Create` | apps/api/src/gamehost_api/domain/servers.py:78-108 | refused for an unknown template or a taken name; otherwise server, provision task and audit row appear in one commit |
| `Api.RequestAction` | apps/api/src/gamehost_api/domain/servers.py:110-134 | each refusal in the order of the checks, the statuses each action is allowed in, and no change on refusal |
| `Api.RequestDelete` | apps/api/src/gamehost_api/domain/servers.py:150-165 | refused to anyone below owner and on a server already deleting; otherwise status, task and audit row change together |
| `Api.RequestPatch` | apps/api/src/gamehost_api/domain/servers.py:136-148 | resources change only on a stopped server and only for its owner |
| `Api.RequestBackup` | apps/api/src/gamehost_api/domain/backups.py:45-67 | backup row, task and audit row appear together for an operator or owner |
| `Api.RequestRestore` | apps/api/src/gamehost_api/domain/backups.py:76-98 | each refusal in the order of the checks; a task is created only for an available backup of a stopped server |
| `Api.Enqueue` | apps/api/src/gamehost_api/domain/servers.py:167-168 | the job is queued under its task's id before any row is committed |
| `Api.AddNode` | apps/api/src/gamehost_api/domain/nodes.py:21-35 | refused for a taken name; otherwise a new node row under a fresh id, nothing else |
| `Api.UpdateNode` | apps/api/src/gamehost_api/domain/nodes.py:37-44 | refused for a missing node; otherwise endpoint, status and capacity of the one node change |
| `Api.RemoveNode` | apps/api/src/gamehost_api/domain/nodes.py:46-50 | refused for a missing node; otherwise the row goes and its servers lose node_id |
| `RequestEffects.WhatRequestsNeed` | apps/api/src/gamehost_api/domain/servers.py:31-35 | a request can commit if and only if its server has a status its action is allowed in: start stopped or failed, stop and restart running, delete any but deleting, restore stopped with an available backup of that server |
| `RequestEffects.WhatRequestsWrite` | apps/api/src/gamehost_api/domain/servers.py:99-107 | a request writes its pending task and one log row, a create the pending unplaced server, a delete the status, a backup its row with the key {server}/{backup}; every other row stays |
| `RequestEffects.WhatEnqueueAdds` | apps/api/src/gamehost_api/domain/servers.py:167-168 | queueing adds the job without locals and changes no row |
| `RequestEffects.NodeAdded` | apps/api/src/gamehost_api/domain/nodes.py:21-35 | a node is added as given and nothing else changes |
| `RequestEffects.NodeRemoved` | apps/api/alembic/versions/0003_servers_tasks_audit.py:67 | each server row is what it was, with node_id empty if and only if it named the removed node or none |
| `RequestEffects.NodePatched` | apps/api/src/gamehost_api/domain/nodes.py:37-44 | the one node gets what was given and counts as another agent if and only if the endpoint is another |
| `RequestEffects.ServerPatched` | apps/api/src/gamehost_api/domain/servers.py:136-148 | possible if and only if the server is stopped; only its resources change |
| `Store.Tables.DeleteRow` | apps/api/alembic/versions/0003_servers_tasks_audit.py:99 | the server row goes, its tasks lose server_id, its backups go with it, every other row stays |
| `Store.Tables.DeleteNode` | apps/api/alembic/versions/0003_servers_tasks_audit.py:67 | the node row goes and its servers lose node_id and nothing else |
| `BackupStreaming.PartsAreSound` | apps/node_agent/src/gamehost_node/domain/backups.py:111-149 | for any stream in chunks of at most 65536 bytes: at least one part, the parts joined are the stream, every part but the last has 8 MiB to 8 MiB + 65535 bytes, the last is empty if and only if the stream is, (n-1) * 8 MiB is at most the total, so n is at most 10000 below 10000 * 8 MiB |
| `BackupStreaming.CutKeepsBytes` | apps/node_agent/src/gamehost_node/domain/backups.py:116-132 | cutting behind a buffer loses, adds and reorders no byte |
| `BackupStreaming.Transfer` | apps/node_agent/src/gamehost_node/domain/backups.py:115-149 | the receive loop uploads exactly the cut of the chunks, in order, until the stream ends, breaks, or an upload fails |
| `BackupStreaming.Flush` | apps/node_agent/src/gamehost_node/domain/backups.py:133-149 | a remainder, or one empty part for an empty stream, is uploaded; the completion lists 1..n; the object is the whole stream |
| `BackupStreaming.Upload` | apps/node_agent/src/gamehost_node/domain/backups.py:106-155 | result and published object for every pattern of failing receives and failing calls; a ClientError becomes S3Unavailable, anything else is raised again; the completion lists 1..n over the staged parts; an upload that was created and failed is aborted once |
| `BackupStreaming.UploadIsAllOrNothing` | apps/node_agent/src/gamehost_node/domain/backups.py:106-155 | if a receive or a call before the completion fails nothing is published; the upload succeeds if and only if nothing fails; it publishes and still raises only when the completion took effect and reported a failure |
| `BackupStreaming.UploadErrors` | apps/node_agent/src/gamehost_node/domain/backups.py:150-155 | which error is raised: that of the first failing call, a ClientError as S3Unavailable and any other as it is, or else the one that broke the stream |
| `BackupStreaming.ArrivedInFull` | apps/node_agent/src/gamehost_node/domain/backups.py:115-118 | the stream is the data of the receives before the first that breaks or brings nothing, and it breaks if and only if that one does |
| `BackupStreaming.Download` | apps/node_agent/src/gamehost_node/domain/backups.py:157-170 | sends on the stored object in order and returns its length if and only if nothing fails; after a failure a beginning of it has been sent |
| `BackupStreaming.RoundTrip` | apps/node_agent/src/gamehost_node/domain/backups.py:106-170 | what a restore sends is what the backup received, for any two chunkings, and both calls return the same count |
| `BackupStreaming.RoundTripBytes` | apps/node_agent/src/gamehost_node/domain/backups.py:111-168 | any chunking of the joined parts carries the received bytes |
| `RefreshTokens.AuthService.Login` | apps/api/src/gamehost_api/domain/auth.py:52-60 | a token is issued if and only if the user exists, is verified and is active; it opens a family of its own, is unrevoked and expires ttl seconds from now; otherwise nothing changes |
| `RefreshTokens.AuthService.Refresh` | apps/api/src/gamehost_api/domain/auth.py:62-77 | accepted if and only if known, unexpired, unrevoked and of an active user; a revoked unexpired token revokes all of its user; anything else changes nothing; an accepted token is revoked now and its successor, of the same user and family, expires ttl seconds from now |
| `RefreshTokens.AuthService.Logout` | apps/api/src/gamehost_api/domain/auth.py:79-84 | revokes an unrevoked token and does nothing otherwise |
| `RefreshTokens.AuthService.RevokeAllForUser` | apps/api/src/gamehost_api/repositories/refresh_tokens.py:43-52 | every unrevoked token of the user is revoked, all others keep their row |
| `RefreshTokens.OneUnrevokedPerFamily` | apps/api/src/gamehost_api/domain/auth.py:76-98 | at every moment of every run of whole service calls each family has at most one unrevoked token |
| `RefreshTokens.AcceptedAtMostOnce` | apps/api/src/gamehost_api/domain/auth.py:62-77 | over a whole run of service calls, one after another, refresh accepts a token at most once |
| `RefreshTokens.RevocationIsFinal` | apps/api/src/gamehost_api/repositories/refresh_tokens.py:39-52 | a revocation is never undone and its time never changes |
| `RefreshTokens.NoMoreThanLogins` | apps/api/src/gamehost_api/domain/auth.py:52-98 | a user never has more unrevoked tokens than successful logins |
| `RefreshTokens.LifeOfToken` | apps/api/src/gamehost_api/domain/auth.py:62-98 | over any run a token keeps the user and family it was issued for and the expiry of issue plus ttl, and is unrevoked if and only if no later step ended its life |
| `RefreshTokens.AcceptedForTtl` | apps/api/src/gamehost_api/domain/auth.py:62-98 | over any run a token is accepted if and only if less than ttl has passed since it was issued, its user is active, and since then it was neither exchanged nor logged out and no revoked unexpired token of its user was presented |
| `RefreshTokens.EveryTokenWasIssued` | apps/api/src/gamehost_api/domain/auth.py:52-98 | over any run every token was issued by a login of an active verified user or by the exchange of an acceptable token, and expires ttl after that |
| `RefreshTokens.ReuseRevokesAll` | apps/api/src/gamehost_api/domain/auth.py:70-72 | presenting a revoked unexpired token leaves its user without an unrevoked token and changes no token of anyone else |
| `RefreshTokens.ReuseEndsFamilies` | apps/api/src/gamehost_api/domain/auth.py:62-77 | after a reuse every token of the user issued before, and every descendant, is refused for the rest of the run |
| `Membership.MemberService.Send` | apps/api/src/gamehost_api/domain/members.py:70-102 | each refusal in order; an expired but open invite still blocks; otherwise exactly one new open invite, to the normalised email, with the server and role asked for and its time to live |
| `Membership.MemberService.Revoke` | apps/api/src/gamehost_api/domain/members.py:104-117 | only an open invite of this server is revoked, everything else is not found |
| `Membership.MemberService.Remove` | apps/api/src/gamehost_api/domain/members.py:119-132 | the row goes if and only if the user is a member and not the owner |
| `Membership.MemberService.Accept` | apps/api/src/gamehost_api/domain/members.py:147-179 | accepted if and only if open, unexpired, sent to the actor's email, and the actor is neither owner nor member; each refusal and no change then |
| `Membership.MemberService.ListMembers` | apps/api/src/gamehost_api/domain/members.py:39-65 | in every reachable state the page names the owner first and each member exactly once, each with the role the resolver gives |
| `Membership.MembershipIsHistory` | apps/api/src/gamehost_api/domain/members.py:119-170 | accepts minus removals is 1 where there is a member row and 0 where there is none; the owner never has a row |
| `Membership.RoleIsLastAccepted` | apps/api/src/gamehost_api/domain/members.py:147-170 | a member's role is that of the invite accepted last, which was sent to their own email, and it is their only row |
| `Membership.RoleWasRequested` | apps/api/src/gamehost_api/domain/members.py:70-170 | over any run a member has the role given in the request that sent the invite they accepted last; it named this server and their own email, they accepted within its time to live, and nothing removed them since |
| `Membership.InviteWasSent` | apps/api/src/gamehost_api/domain/members.py:70-92 | over any run every invite row says what the request that sent it asked for: server, role, normalised email and time to live |
| `Membership.NormalizeByCharacter` | apps/api/src/gamehost_api/domain/members.py:73 | the normalised email is what lies between the outermost characters that are no ASCII whitespace, with A to Z replaced by a to z |
| `Membership.ServerTakesItsRows` | apps/api/alembic/versions/0004_members_invites.py:35 | a deleted server takes its members and its invites along, and no others |
| `Membership.InvitesAreSound` | apps/api/alembic/versions/0004_members_invites.py:66-70 | no invite is both accepted and revoked, and a server has at most one open invite for an email |
| `Membership.ClosedStaysClosed` | apps/api/src/gamehost_api/domain/members.py:172-179 | an accepted or revoked invite never changes again and admits nobody |
| `Membership.ViewsAgree` | apps/api/src/gamehost_api/repositories/servers.py:43-56 | a server is listed for a user if and only if the resolver gives them a role on it |
| `Membership.NamesEachOnce` | apps/api/src/gamehost_api/domain/members.py:52-65 | the member part of the page mentions each member once and nobody else |
| `Access.MemberFor` | apps/api/src/gamehost_api/repositories/server_members.py:13-17 | finds the row of the user on the server if and only if there is one |
| `Access.RoleForInFull` | apps/api/src/gamehost_api/domain/access.py:14-28 | owner for the owner and every admin, otherwise operator or viewer as the one row of the user says, and no role without a row or a server |

## Left out

- Authorization inside the step machine: every actor may make every request there; `Api` takes the resolved role as a parameter and `Membership` proves the resolver.
- An API request is one step from its guard to its commit, with its job queued in a separate earlier step; a job whose request then fails stays in the queue and finds no task.
- What a backup or a restore moves while it runs: each acts at one moment, in time or late.
- Two executions of one job (ARQ redelivery), and a worker that dies: the latter is a run in which the job takes no further step.
- Container ids are unique; the agent shortens them to twelve characters.
- Resources use the canonical keys `cpuCores` and `memMb`; the aliases and defaults of the selector and of the container spec are not read.
- The order of equal candidates in the selector and of listed servers.
- Scheduler.RunJob: drives the stages of every kind of job in one loop over the job's phase, where the source writes the stages of each kind one after another.
- BackupStreaming.Upload: the helper container, the volume check and the waits around the stream are outside it; the protocol's `Fault` after execution covers a failure behind a published object.
- BackupStreaming.Download: what `tar` does with a stream that breaks off.
- Limits S3 itself puts on parts and objects, beyond the part count proved here.
- Membership: case folding and whitespace outside ASCII; removal of users; audit rows of membership requests.
- RefreshTokens.AcceptedAtMostOnce: each service call is one step; the source reads the row without a lock, so two refreshes of one token that overlap can both be accepted.
- RefreshTokens.OneUnrevokedPerFamily: the same assumption; two overlapping refreshes leave two unrevoked tokens.
- RefreshTokens: password hashing, access tokens, cookies, user agents and addresses.
- Server and node names and template rows: whether one is taken or missing is a parameter of the request.
- Templates, environment, hosts, ports, log tailing and streaming, task polling, node and template administration beyond adding, removing and patching nodes.
