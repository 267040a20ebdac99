/** The worker's jobs, one function for each transaction a job commits and for each answer
    it reacts to. Between any two of them every other actor may run. */
module Jobs {
  import opened Wrappers
  import opened Rows
  import opened Repositories
  import opened Agent
  import opened NodeAgentClient

  /** What a job keeps of the node row it read. */
  datatype Route = Route(node: nat, endpoint: nat)

  /** Where a job stands: what it will do next. */
  datatype Phase =
    | Queued
    | Marked                                     // provision: `running` is committed
    | Lookup(node: nat)                          // delete: about to read the node row
    | Orphan                                     // the node row was missing
    | Calling(node: nat, endpoint: nat, request: Request, attempt: nat)
    | Placing(node: nat, container: nat)         // provision: about to record the placement
    | Closing(size: nat)                         // about to commit the success transaction
    | Failing                                    // about to commit the failure handler
    | Ended

  /** The server and backup a task was created for. Its row may lose the server later. */
  datatype Origin = Origin(server: nat, backup: nat)

  /** `server`, `container`, `backup`, `agent` (the node row it read) and `ask` are
      the job's locals, None until assigned.
      `early` records that the first transaction found no task row. */
  datatype Job = Job(kind: Kind, origin: Origin, phase: Phase, server: Option<nat>,
                     container: Option<nat>, backup: Option<nat>, agent: Option<Route>, ask: Resources, early: bool)

  function NewJob(kind: Kind, origin: Origin): Job {
    Job(kind, origin, Queued, None, None, None, None, Resources(0.0, 0), false)
  }

  /** The tables after a transaction, and the job. */
  datatype Tx = Tx(db: Db, job: Job)

  // ----- first transactions

  function Started(db: Db, task: nat, job: Job): Job {
    job.(early := task !in db.tasks)
  }

  function Begin(db: Db, task: nat, job: Job): Tx {
    var started := Started(db, task, job);
    match job.kind
    case Provision => Tx(MarkRunning(db, task), started.(phase := Marked))
    case Start => LifecycleBegin(db, task, started)
    case Stop => LifecycleBegin(db, task, started)
    case Restart => LifecycleBegin(db, task, started)
    case Delete => DeleteBegin(db, task, started)
    case Backup => BackupBegin(db, task, started)
    case Restore => RestoreBegin(db, task, started)
  }

  /** Ask the agent on `node`, or go on to record that the row of the node is missing. */
  function CallOn(db: Db, job: Job, node: nat, request: Request): Job {
    if node in db.nodes
    then job.(agent := Some(Route(node, db.nodes[node].endpoint)),
              phase := Calling(node, db.nodes[node].endpoint, request, 0))
    else job.(phase := Orphan)
  }

  function LifecycleBegin(db: Db, task: nat, job: Job): Tx {
    var db1 := MarkRunning(db, task);
    if task !in db1.tasks || db1.tasks[task].server.None? then Tx(db1, job.(phase := Ended))
    else
      var server := db1.tasks[task].server.value;
      var job1 := job.(server := Some(server));
      if server !in db1.servers || db1.servers[server].container.None? || db1.servers[server].node.None?
      then Tx(MarkFailed(db1, task), job1.(phase := Ended))
      else
        var row := db1.servers[server];
        Tx(db1, CallOn(db1, job1.(container := row.container), row.node.value, ActOn(row.container.value, job.kind)))
  }

  function DeleteBegin(db: Db, task: nat, job: Job): Tx {
    var db1 := MarkRunning(db, task);
    if task !in db1.tasks || db1.tasks[task].server.None? then Tx(db1, job.(phase := Ended))
    else
      var server := db1.tasks[task].server.value;
      var job1 := job.(server := Some(server));
      if server !in db1.servers then Tx(MarkSucceeded(db1, task), job1.(phase := Ended))
      else
        var row := db1.servers[server];
        Tx(db1, job1.(container := row.container,
                      phase := if row.container.Some? && row.node.Some? then Lookup(row.node.value)
                               else Closing(0)))
  }

  function BackupBegin(db: Db, task: nat, job: Job): Tx {
    var db1 := MarkRunning(db, task);
    if task !in db1.tasks then Tx(db1, job.(phase := Ended))
    else
      var backup := db1.tasks[task].backup;
      var server := db1.tasks[task].server;
      var job1 := job.(backup := backup, server := server);
      if server.None? || server.value !in db1.servers || backup.None? || backup.value !in db1.backups
         || db1.servers[server.value].node.None? || db1.servers[server.value].container.None?
      then Tx(MarkBackupFailed(MarkFailed(db1, task), backup), job1.(phase := Ended))
      else
        var row := db1.servers[server.value];
        var request := RunBackup(row.container.value, server.value, db1.backups[backup.value].key);
        Tx(db1, CallOn(db1, job1.(container := row.container), row.node.value, request))
  }

  function RestoreBegin(db: Db, task: nat, job: Job): Tx {
    var db1 := MarkRunning(db, task);
    if task !in db1.tasks then Tx(db1, job.(phase := Ended))
    else
      var backup := db1.tasks[task].backup;
      var server := db1.tasks[task].server;
      var job1 := job.(backup := backup, server := server);
      if server.None? || server.value !in db1.servers || backup.None? || backup.value !in db1.backups
         || db1.servers[server.value].node.None? || db1.servers[server.value].container.None?
         || !db1.servers[server.value].status.Stopped?
      then Tx(MarkFailed(db1, task), job1.(phase := Ended))
      else
        var row := db1.servers[server.value];
        var request := RunRestore(row.container.value, server.value, db1.backups[backup.value].key);
        Tx(db1, CallOn(db1, job1.(container := row.container), row.node.value, request))
  }

  // ----- provision: choose a node

  /** `choice` is what the node selector returned; raising rolls the status change back. */
  function ProvisionSelect(db: Db, task: nat, job: Job, choice: Option<nat>): Tx {
    if task !in db.tasks || db.tasks[task].server.None? then Tx(db, job.(phase := Failing))
    else
      var server := db.tasks[task].server;
      var job1 := job.(server := server);
      if server.value !in db.servers || choice.None? || choice.value !in db.nodes
      then Tx(db, job1.(phase := Failing))
      else
        var row := db.servers[server.value];
        Tx(SetStatus(db, server, ServerStatus.Provisioning),
           CallOn(db, job1.(ask := row.resources), choice.value, CreateContainer(server.value)))
  }

  // ----- reacting to the agent

  /** The answer that counts as success for each request. */
  predicate Accepts(request: Request, code: int) {
    match request
    case CreateContainer(_) => code == 201
    case RemoveContainer(_) => code == 204 || code == 404
    case _ => code == 200
  }

  function AfterReturn(job: Job, answer: Answer): Phase
    requires job.phase.Calling?
  {
    var Calling(node, endpoint, request, _) := job.phase;
    if !Accepts(request, answer.code) then Failing
    else match request
      case CreateContainer(_) => Calling(node, endpoint, InspectContainer(answer.id), 0)
      case InspectContainer(container) => Placing(node, container)
      case _ => Closing(answer.size)
  }

  function React(job: Job, outcome: Outcome): Job
    requires job.phase.Calling?
  {
    match Decide(job.phase.attempt, MAX_RETRIES, outcome)
    case Again => job.(phase := job.phase.(attempt := job.phase.attempt + 1))
    case Return(answer) => job.(phase := AfterReturn(job, answer))
    case Raise => job.(phase := Failing)
  }

  function ReadNode(db: Db, job: Job): Job
    requires job.phase.Lookup?
  {
    var node := job.phase.node;
    if node in db.nodes && job.container.Some?
    then CallOn(db, job, node, RemoveContainer(job.container.value))
    else job.(phase := Closing(0))
  }

  // ----- provision: record the placement

  /** When the server row is gone the update may raise (`silent` false) or match nothing. */
  function Place(db: Db, job: Job, silent: bool): Tx
    requires job.phase.Placing?
  {
    var Placing(node, container) := job.phase;
    var done := Record(if job.server.Some? then SetProvisioned(db, job.server.value, node, container) else db,
                       Completed(Provision), job.server);
    if job.server.None? || job.server.value !in db.servers
    then if silent then Tx(done, job.(phase := Closing(0))) else Tx(db, job.(phase := Failing))
    else if node !in db.nodes then Tx(db, job.(phase := Failing))
    else Tx(done, job.(phase := Closing(0)))
  }

  // ----- last transactions

  function Target(kind: Kind): ServerStatus {
    if kind.Stop? then ServerStatus.Stopped else ServerStatus.Running
  }

  function CloseDb(db: Db, task: nat, job: Job, size: nat): Db {
    match job.kind
    case Provision => MarkSucceeded(db, task)
    case Delete => MarkSucceeded(Record(DeleteServer(db, job.server), Completed(Delete), job.server), task)
    case Backup => Record(MarkSucceeded(MarkAvailable(db, job.backup, size), task), Completed(Backup), job.backup)
    case Restore => Record(MarkSucceeded(db, task), Completed(Restore), job.backup)
    case kind => MarkSucceeded(Record(SetStatus(db, job.server, Target(kind)), Completed(kind), job.server), task)
  }

  function Close(db: Db, task: nat, job: Job): Tx
    requires job.phase.Closing?
  {
    Tx(CloseDb(db, task, job, job.phase.size), job.(phase := Ended))
  }

  function Fail(db: Db, task: nat, job: Job): Tx {
    Tx(match job.kind
       case Provision => MarkFailed(SetStatus(db, job.server, ServerStatus.Failed), task)
       case Backup => Record(MarkFailed(MarkBackupFailed(db, job.backup), task), BackupFailed, job.backup)
       case _ => MarkFailed(db, task),
       job.(phase := Ended))
  }

  /** The transaction that records a missing node row. */
  function Mourn(db: Db, task: nat, job: Job): Tx {
    Tx(if job.kind.Backup? then MarkBackupFailed(MarkFailed(db, task), job.backup) else MarkFailed(db, task),
       job.(phase := Ended))
  }

  /** The phases whose code runs under the job's `try`. */
  predicate Guarded(phase: Phase) {
    phase.Marked? || phase.Lookup? || phase.Calling? || phase.Placing? || phase.Closing?
  }
}
