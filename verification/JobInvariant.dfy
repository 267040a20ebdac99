/** What holds between a job, its locals and its task row at every moment. */
module JobInvariant {
  import opened Wrappers
  import opened Rows
  import opened Repositories
  import opened Agent
  import opened NodeAgentClient
  import opened Jobs
  import opened Protocol

  predicate UsesBackup(kind: Kind) {
    kind.Backup? || kind.Restore?
  }

  /** The two kinds whose job gives up without closing the task when the server is unknown. */
  predicate Silent(kind: Kind) {
    IsLifecycle(kind) || kind.Delete?
  }

  /** What a job may ask of the agent. */
  predicate Asks(job: Job, request: Request) {
    var key := Key(job.origin.server, job.origin.backup);
    match job.kind
    case Provision => request == CreateContainer(job.origin.server) || request.InspectContainer?
    case Delete => job.container.Some? && request == RemoveContainer(job.container.value)
    case Backup => job.container.Some? && request == RunBackup(job.container.value, job.origin.server, key)
    case Restore => job.container.Some? && request == RunRestore(job.container.value, job.origin.server, key)
    case kind => job.container.Some? && request == ActOn(job.container.value, kind)
  }

  predicate PhaseOk(job: Job) {
    var located := job.server.Some? && (UsesBackup(job.kind) ==> job.backup.Some?);
    match job.phase
    case Queued => job.server.None? && job.container.None? && job.backup.None? && job.agent.None? && !job.early
    case Marked => job.kind.Provision? && job.server.None? && job.agent.None?
    case Lookup(_) => job.kind.Delete? && located && job.container.Some? && job.agent.None?
    case Orphan => !job.kind.Provision? && !job.kind.Delete? && located
    case Calling(node, endpoint, request, _) =>
      located && Asks(job, request) && job.agent == Some(Route(node, endpoint))
    case Placing(_, _) => job.kind.Provision? && located
    case Closing(_) => located
    case Failing => job.kind.Provision? || located
    case Ended => true
  }

  predicate LocalsOk(job: Job, row: Option<TaskRow>) {
    && (job.server.Some? ==> job.server.value == job.origin.server && row.Some?)
    && (job.backup.Some? ==> job.backup.value == job.origin.backup && row.Some?)
    && (job.early ==> job.kind.Provision? || job.phase.Ended?)
  }

  /** A finished job and its task: which tasks are left unfinished, and why. */
  predicate EndedOk(job: Job, row: TaskRow) {
    && row.started == !job.early
    && (row.status.Pending? ==> job.early)
    && (job.early && !job.kind.Provision? ==> row.status.Pending?)
    && (row.status.Running? ==> Silent(job.kind))
    && (Silent(job.kind) ==> (Terminal(row.status) <==> job.server.Some?))
    && (job.server.Some? ==> Terminal(row.status))
  }

  predicate RowOk(job: Job, row: TaskRow) {
    && row.kind == job.kind
    && (row.server.Some? ==> row.server.value == job.origin.server)
    && row.backup == (if UsesBackup(job.kind) then Some(job.origin.backup) else None)
    && row.finished == Terminal(row.status)
    && match job.phase
       case Queued => row.status.Pending? && !row.started
       case Ended => EndedOk(job, row)
       case _ => if job.early then row.status.Pending? && !row.started else row.status.Running? && row.started
  }

  predicate JobOk(job: Job, row: Option<TaskRow>) {
    && PhaseOk(job)
    && LocalsOk(job, row)
    && match row
       case None => job.phase.Queued? || (job.early && (job.phase.Marked? || job.phase.Failing? || job.phase.Ended?))
       case Some(r) => RowOk(job, r)
  }

  ghost predicate EachJobOk(tasks: map<nat, TaskRow>, jobs: map<nat, Job>) {
    forall t :: t in jobs ==> JobOk(jobs[t], Find(tasks, t))
  }

  ghost predicate TasksHaveJobs(tasks: map<nat, TaskRow>, jobs: map<nat, Job>) {
    forall t :: t in tasks ==> t in jobs
  }

  /** The histories name the one provision task of each server and the one backup task of
      each backup. */
  ghost predicate Histories(jobs: map<nat, Job>, made: map<nat, nat>, ordered: map<nat, nat>) {
    && (forall t :: t in jobs && jobs[t].kind.Provision? ==>
          jobs[t].origin.server in made && made[jobs[t].origin.server] == t)
    && (forall t :: t in jobs && jobs[t].kind.Backup? ==>
          jobs[t].origin.backup in ordered && ordered[jobs[t].origin.backup] == t)
    && (forall s :: s in made ==>
          made[s] in jobs && jobs[made[s]].kind.Provision? && jobs[made[s]].origin.server == s)
    && (forall b :: b in ordered ==>
          ordered[b] in jobs && jobs[ordered[b]].kind.Backup? && jobs[ordered[b]].origin.backup == b)
  }

  ghost predicate JobsOk(tasks: map<nat, TaskRow>, jobs: map<nat, Job>, made: map<nat, nat>, ordered: map<nat, nat>) {
    EachJobOk(tasks, jobs) && TasksHaveJobs(tasks, jobs) && Histories(jobs, made, ordered)
  }

  // ----- foreign keys

  /** A server was made by a committed request, and a set `node_id` names a node. */
  ghost predicate ServerKeys(servers: map<nat, ServerRow>, tasks: map<nat, TaskRow>, nodes: map<nat, NodeRow>,
                             made: map<nat, nat>)
  {
    forall s :: s in servers ==>
      s in made && made[s] in tasks && (servers[s].node.Some? ==> servers[s].node.value in nodes)
  }

  ghost predicate TaskKeys(tasks: map<nat, TaskRow>, servers: map<nat, ServerRow>) {
    forall t :: t in tasks && tasks[t].server.Some? ==> tasks[t].server.value in servers
  }

  /** A backup was ordered by a committed request for the server that has it. */
  ghost predicate BackupKeys(backups: map<nat, BackupRow>, servers: map<nat, ServerRow>, tasks: map<nat, TaskRow>,
                             jobs: map<nat, Job>, ordered: map<nat, nat>)
  {
    forall b :: b in backups ==>
      && backups[b].server in servers && backups[b].key == Key(backups[b].server, b)
      && b in ordered && ordered[b] in tasks && ordered[b] in jobs
      && jobs[ordered[b]].origin.server == backups[b].server
  }

  /** A restore names a backup ordered for its own server. */
  ghost predicate RestoreKeys(tasks: map<nat, TaskRow>, jobs: map<nat, Job>, ordered: map<nat, nat>) {
    forall t :: t in tasks && t in jobs && jobs[t].kind.Restore? ==>
      var b := jobs[t].origin.backup;
      && b in ordered && ordered[b] in tasks && ordered[b] in jobs
      && jobs[ordered[b]].origin.server == jobs[t].origin.server
  }

  /** A task was created for a server whose own creation is committed. */
  ghost predicate OriginKeys(tasks: map<nat, TaskRow>, jobs: map<nat, Job>, made: map<nat, nat>) {
    forall t :: t in tasks && t in jobs ==> jobs[t].origin.server in made && made[jobs[t].origin.server] in tasks
  }

  ghost predicate RowsOk(db: Db, jobs: map<nat, Job>, made: map<nat, nat>, ordered: map<nat, nat>) {
    && ServerKeys(db.servers, db.tasks, db.nodes, made)
    && TaskKeys(db.tasks, db.servers)
    && BackupKeys(db.backups, db.servers, db.tasks, jobs, ordered)
    && RestoreKeys(db.tasks, jobs, ordered)
    && OriginKeys(db.tasks, jobs, made)
  }

  // ----- one job

  /** A transaction of one job changes no other task, except that a task may lose its server. */
  predicate Leaves(tasks: map<nat, TaskRow>, after: map<nat, TaskRow>, task: nat) {
    && after.Keys == tasks.Keys
    && forall t :: t in tasks && t != task ==> after[t] == tasks[t] || after[t] == tasks[t].(server := None)
  }

  predicate SameJob(job: Job, after: Job) {
    after.kind == job.kind && after.origin == job.origin
  }

  ghost predicate TxOk(db: Db, task: nat, job: Job, tx: Tx) {
    JobOk(tx.job, Find(tx.db.tasks, task)) && Leaves(db.tasks, tx.db.tasks, task) && SameJob(job, tx.job)
  }

  lemma ProvisionBeginOk(db: Db, task: nat, job: Job)
    requires JobOk(job, Find(db.tasks, task)) && job.phase.Queued? && job.kind.Provision?
    ensures TxOk(db, task, job, Begin(db, task, job))
  {
  }

  lemma LifecycleBeginOk(db: Db, task: nat, job: Job)
    requires JobOk(job, Find(db.tasks, task)) && job.phase.Queued? && IsLifecycle(job.kind)
    ensures TxOk(db, task, job, Begin(db, task, job))
  {
    hide DeleteBegin, BackupBegin, RestoreBegin;
    match job.kind
    case Start =>
    case Stop =>
    case Restart =>
  }

  lemma DeleteBeginOk(db: Db, task: nat, job: Job)
    requires JobOk(job, Find(db.tasks, task)) && job.phase.Queued? && job.kind.Delete?
    ensures TxOk(db, task, job, Begin(db, task, job))
  {
  }

  lemma BackupBeginOk(db: Db, task: nat, job: Job)
    requires JobOk(job, Find(db.tasks, task)) && job.phase.Queued? && job.kind.Backup?
    requires job.origin.backup in db.backups ==>
               db.backups[job.origin.backup].key == Key(job.origin.server, job.origin.backup)
    ensures TxOk(db, task, job, Begin(db, task, job))
  {
  }

  lemma RestoreBeginOk(db: Db, task: nat, job: Job)
    requires JobOk(job, Find(db.tasks, task)) && job.phase.Queued? && job.kind.Restore?
    requires task in db.tasks && job.origin.backup in db.backups ==>
               db.backups[job.origin.backup].key == Key(job.origin.server, job.origin.backup)
    ensures TxOk(db, task, job, Begin(db, task, job))
  {
  }

  lemma BeginOk(db: Db, jobs: map<nat, Job>, made: map<nat, nat>, ordered: map<nat, nat>, task: nat)
    requires JobsOk(db.tasks, jobs, made, ordered) && RowsOk(db, jobs, made, ordered)
    requires task in jobs && jobs[task].phase.Queued?
    ensures TxOk(db, task, jobs[task], Begin(db, task, jobs[task]))
  {
    hide Begin, TxOk, JobOk, ServerKeys, TaskKeys, OriginKeys, TasksHaveJobs;
    var job := jobs[task];
    assert JobOk(job, Find(db.tasks, task));
    match job.kind
    case Provision => ProvisionBeginOk(db, task, job);
    case Delete => DeleteBeginOk(db, task, job);
    case Backup => BackupBeginOk(db, task, job);
    case Restore => RestoreBeginOk(db, task, job);
    case _ => LifecycleBeginOk(db, task, job);
  }

  lemma SelectOk(db: Db, task: nat, job: Job, choice: Option<nat>)
    requires JobOk(job, Find(db.tasks, task)) && job.phase.Marked?
    ensures TxOk(db, task, job, ProvisionSelect(db, task, job, choice))
  {
  }

  lemma LookupOk(db: Db, task: nat, job: Job)
    requires JobOk(job, Find(db.tasks, task)) && job.phase.Lookup?
    ensures TxOk(db, task, job, Tx(db, ReadNode(db, job)))
  {
  }

  lemma ReactOk(job: Job, row: Option<TaskRow>, outcome: Outcome)
    requires JobOk(job, row) && job.phase.Calling?
    ensures JobOk(React(job, outcome), row) && SameJob(job, React(job, outcome))
  {
  }

  lemma CloseDeleteOk(db: Db, task: nat, job: Job)
    requires JobOk(job, Find(db.tasks, task)) && job.phase.Closing? && job.kind.Delete?
    ensures TxOk(db, task, job, Close(db, task, job))
  {
  }

  lemma CloseLifecycleOk(db: Db, task: nat, job: Job)
    requires JobOk(job, Find(db.tasks, task)) && job.phase.Closing? && IsLifecycle(job.kind)
    ensures TxOk(db, task, job, Close(db, task, job))
  {
  }

  lemma CloseBackupOk(db: Db, task: nat, job: Job)
    requires JobOk(job, Find(db.tasks, task)) && job.phase.Closing? && job.kind.Backup?
    ensures TxOk(db, task, job, Close(db, task, job))
  {
  }

  lemma CloseOtherOk(db: Db, task: nat, job: Job)
    requires JobOk(job, Find(db.tasks, task)) && job.phase.Closing? && (job.kind.Provision? || job.kind.Restore?)
    ensures TxOk(db, task, job, Close(db, task, job))
  {
  }

  lemma CloseOk(db: Db, task: nat, job: Job)
    requires JobOk(job, Find(db.tasks, task)) && job.phase.Closing?
    ensures TxOk(db, task, job, Close(db, task, job))
  {
    hide JobOk, TxOk, Close;
    match job.kind
    case Delete => CloseDeleteOk(db, task, job);
    case Backup => CloseBackupOk(db, task, job);
    case Provision => CloseOtherOk(db, task, job);
    case Restore => CloseOtherOk(db, task, job);
    case _ => CloseLifecycleOk(db, task, job);
  }

  lemma FailProvisionOk(db: Db, task: nat, job: Job)
    requires JobOk(job, Find(db.tasks, task)) && job.phase.Failing? && job.kind.Provision?
    ensures TxOk(db, task, job, Fail(db, task, job))
  {
  }

  lemma FailBackupOk(db: Db, task: nat, job: Job)
    requires JobOk(job, Find(db.tasks, task)) && job.phase.Failing? && job.kind.Backup?
    ensures TxOk(db, task, job, Fail(db, task, job))
  {
  }

  lemma FailOtherOk(db: Db, task: nat, job: Job)
    requires JobOk(job, Find(db.tasks, task)) && job.phase.Failing? && !job.kind.Provision? && !job.kind.Backup?
    ensures TxOk(db, task, job, Fail(db, task, job))
  {
  }

  lemma FailOk(db: Db, task: nat, job: Job)
    requires JobOk(job, Find(db.tasks, task)) && job.phase.Failing?
    ensures TxOk(db, task, job, Fail(db, task, job))
  {
    hide JobOk, TxOk, Fail;
    match job.kind
    case Provision => FailProvisionOk(db, task, job);
    case Backup => FailBackupOk(db, task, job);
    case _ => FailOtherOk(db, task, job);
  }

  lemma MournOk(db: Db, task: nat, job: Job)
    requires JobOk(job, Find(db.tasks, task)) && job.phase.Orphan?
    ensures TxOk(db, task, job, Mourn(db, task, job))
  {
  }

  lemma PlaceOk(db: Db, task: nat, job: Job, silent: bool)
    requires JobOk(job, Find(db.tasks, task)) && job.phase.Placing?
    ensures TxOk(db, task, job, Place(db, job, silent))
  {
  }

  lemma ThrowOk(job: Job, row: Option<TaskRow>)
    requires JobOk(job, row) && Guarded(job.phase)
    ensures JobOk(job.(phase := Failing), row)
  {
  }

  lemma JobsOkAfter(tasks: map<nat, TaskRow>, jobs: map<nat, Job>, made: map<nat, nat>, ordered: map<nat, nat>,
                    task: nat, job: Job, after: map<nat, TaskRow>)
    requires JobsOk(tasks, jobs, made, ordered) && task in jobs && SameJob(jobs[task], job)
    requires JobOk(job, Find(after, task)) && Leaves(tasks, after, task)
    ensures JobsOk(after, jobs[task := job], made, ordered)
  {
    hide JobOk, Histories;
    SameHistories(jobs, made, ordered, task, job);
    forall t | t in jobs && t != task ensures JobOk(jobs[t], Find(after, t)) {
      assert JobOk(jobs[t], Find(tasks, t));
      StillOk(jobs[t], Find(tasks, t), Find(after, t));
    }
  }

  /** Losing its server leaves a task as its job knows it. */
  lemma StillOk(job: Job, row: Option<TaskRow>, after: Option<TaskRow>)
    requires JobOk(job, row)
    requires after == row || (row.Some? && after == Some(row.value.(server := None)))
    ensures JobOk(job, after)
  {
  }

  lemma SameHistories(jobs: map<nat, Job>, made: map<nat, nat>, ordered: map<nat, nat>, task: nat, job: Job)
    requires Histories(jobs, made, ordered) && task in jobs && SameJob(jobs[task], job)
    ensures Histories(jobs[task := job], made, ordered)
  {
  }
}
