/** Every step keeps the job invariant and the foreign keys. */
module CoreInvariant {
  import opened Wrappers
  import opened Rows
  import opened Repositories
  import opened Agent
  import opened NodeAgentClient
  import opened Jobs
  import opened Protocol
  import opened JobInvariant

  // ----- what one transaction may change

  ghost predicate SameTasks(db: Db, after: Db, task: nat) {
    && after.tasks.Keys == db.tasks.Keys
    && (forall t :: t in db.tasks && t != task ==> after.tasks[t] == db.tasks[t])
    && (task in db.tasks ==> after.tasks[task].server == db.tasks[task].server)
  }

  ghost predicate SameServers(db: Db, after: Db) {
    && after.servers.Keys == db.servers.Keys
    && forall s :: s in db.servers && after.servers[s].node != db.servers[s].node ==>
         after.servers[s].node.Some? && after.servers[s].node.value in db.nodes
  }

  ghost predicate SameBackups(db: Db, after: Db) {
    && after.backups.Keys == db.backups.Keys
    && forall b :: b in db.backups ==>
         after.backups[b].server == db.backups[b].server && after.backups[b].key == db.backups[b].key
  }

  /** A transaction that deletes nothing and moves no server to an unknown node. */
  ghost predicate Tame(db: Db, after: Db, task: nat) {
    SameTasks(db, after, task) && SameServers(db, after) && SameBackups(db, after) && after.nodes == db.nodes
  }

  lemma LifecycleBeginTame(db: Db, task: nat, job: Job)
    ensures Tame(db, LifecycleBegin(db, task, job).db, task)
  {
  }

  lemma DeleteBeginTame(db: Db, task: nat, job: Job)
    ensures Tame(db, DeleteBegin(db, task, job).db, task)
  {
  }

  lemma BackupBeginTame(db: Db, task: nat, job: Job)
    ensures Tame(db, BackupBegin(db, task, job).db, task)
  {
    hide MarkRunning, MarkFailed, MarkBackupFailed;
    MarkRunningTame(db, task);
    var db1 := MarkRunning(db, task);
    MarkFailedTame(db1, task);
    MarkBackupFailedTame(MarkFailed(db1, task), if task in db1.tasks then db1.tasks[task].backup else None);
  }

  lemma MarkRunningTame(db: Db, task: nat)
    ensures Tame(db, MarkRunning(db, task), task)
  {
  }

  lemma RestoreBeginTame(db: Db, task: nat, job: Job)
    ensures Tame(db, RestoreBegin(db, task, job).db, task)
  {
  }

  lemma BeginTame(db: Db, task: nat, job: Job)
    ensures Tame(db, Begin(db, task, job).db, task)
  {
    var started := Started(db, task, job);
    match job.kind
    case Provision =>
    case Delete => DeleteBeginTame(db, task, started);
    case Backup => BackupBeginTame(db, task, started);
    case Restore => RestoreBeginTame(db, task, started);
    case _ => LifecycleBeginTame(db, task, started);
  }

  lemma SelectTame(db: Db, task: nat, job: Job, choice: Option<nat>)
    ensures Tame(db, ProvisionSelect(db, task, job, choice).db, task)
  {
  }

  lemma PlaceTame(db: Db, task: nat, job: Job, silent: bool)
    requires job.phase.Placing?
    ensures Tame(db, Place(db, job, silent).db, task)
  {
  }

  lemma FailTame(db: Db, task: nat, job: Job)
    ensures Tame(db, Fail(db, task, job).db, task)
  {
    match job.kind
    case Provision => FailProvisionTame(db, task, job);
    case Backup => FailBackupTame(db, task, job);
    case _ =>
  }

  lemma FailProvisionTame(db: Db, task: nat, job: Job)
    requires job.kind.Provision?
    ensures Tame(db, Fail(db, task, job).db, task)
  {
  }

  lemma FailBackupTame(db: Db, task: nat, job: Job)
    requires job.kind.Backup?
    ensures Tame(db, Fail(db, task, job).db, task)
  {
  }

  lemma MournTame(db: Db, task: nat, job: Job)
    ensures Tame(db, Mourn(db, task, job).db, task)
  {
    hide MarkFailed, MarkBackupFailed;
    MarkFailedTame(db, task);
    MarkBackupFailedTame(MarkFailed(db, task), job.backup);
  }

  lemma MarkFailedTame(db: Db, task: nat)
    ensures Tame(db, MarkFailed(db, task), task)
  {
  }

  lemma MarkBackupFailedTame(db: Db, backup: Option<nat>)
    ensures var after := MarkBackupFailed(db, backup);
      after.tasks == db.tasks && after.servers == db.servers && after.nodes == db.nodes && SameBackups(db, after)
  {
  }

  lemma CloseTame(db: Db, task: nat, job: Job)
    requires job.phase.Closing? && !job.kind.Delete?
    ensures Tame(db, Close(db, task, job).db, task)
  {
    match job.kind
    case Provision =>
    case Backup => CloseBackupTame(db, task, job);
    case Restore =>
    case _ => CloseLifecycleTame(db, task, job);
  }

  lemma CloseBackupTame(db: Db, task: nat, job: Job)
    requires job.phase.Closing? && job.kind.Backup?
    ensures Tame(db, Close(db, task, job).db, task)
  {
  }

  lemma CloseLifecycleTame(db: Db, task: nat, job: Job)
    requires job.phase.Closing? && IsLifecycle(job.kind)
    ensures Tame(db, Close(db, task, job).db, task)
  {
  }

  /** Only the last transaction of a delete job removes rows. */
  lemma TxTame(db: Db, task: nat, job: Job, choice: Option<nat>, silent: bool)
    requires !job.phase.Calling? && !job.phase.Ended?
    requires !(job.kind.Delete? && job.phase.Closing?)
    ensures Tame(db, NextTx(db, task, job, choice, silent).db, task)
  {
    match job.phase
    case Queued => BeginTame(db, task, job);
    case Marked => SelectTame(db, task, job, choice);
    case Lookup(_) =>
    case Orphan => MournTame(db, task, job);
    case Placing(_, _) => PlaceTame(db, task, job, silent);
    case Closing(_) => CloseTame(db, task, job);
    case Failing => FailTame(db, task, job);
  }

  // ----- foreign keys over one transaction

  lemma TameKeepsRows(db: Db, jobs: map<nat, Job>, made: map<nat, nat>, ordered: map<nat, nat>, task: nat,
                      after: Db, job: Job)
    requires RowsOk(db, jobs, made, ordered) && Tame(db, after, task)
    requires task in jobs && SameJob(jobs[task], job)
    ensures RowsOk(after, jobs[task := job], made, ordered)
  {
    hide ServerKeys, TaskKeys, BackupKeys, RestoreKeys, OriginKeys, SameBackups, SameServers;
    TameServerKeys(db, made, task, after);
    TameTaskKeys(db, task, after);
    TameBackupKeys(db, jobs, ordered, task, after, job);
    SameTaskKeys(db.tasks, jobs, made, ordered, task, after.tasks, job);
  }

  lemma TameServerKeys(db: Db, made: map<nat, nat>, task: nat, after: Db)
    requires ServerKeys(db.servers, db.tasks, db.nodes, made) && Tame(db, after, task)
    ensures ServerKeys(after.servers, after.tasks, after.nodes, made)
  {
    hide SameBackups;
  }

  lemma TameTaskKeys(db: Db, task: nat, after: Db)
    requires TaskKeys(db.tasks, db.servers) && Tame(db, after, task)
    ensures TaskKeys(after.tasks, after.servers)
  {
    hide SameBackups;
  }

  lemma TameBackupKeys(db: Db, jobs: map<nat, Job>, ordered: map<nat, nat>, task: nat, after: Db, job: Job)
    requires BackupKeys(db.backups, db.servers, db.tasks, jobs, ordered) && Tame(db, after, task)
    requires task in jobs && SameJob(jobs[task], job)
    ensures BackupKeys(after.backups, after.servers, after.tasks, jobs[task := job], ordered)
  {
  }

  lemma SameTaskKeys(tasks: map<nat, TaskRow>, jobs: map<nat, Job>, made: map<nat, nat>, ordered: map<nat, nat>,
                     task: nat, after: map<nat, TaskRow>, job: Job)
    requires RestoreKeys(tasks, jobs, ordered) && OriginKeys(tasks, jobs, made) && after.Keys == tasks.Keys
    requires task in jobs && SameJob(jobs[task], job)
    ensures RestoreKeys(after, jobs[task := job], ordered) && OriginKeys(after, jobs[task := job], made)
  {
  }

  /** The same transaction, seen from the job. */
  lemma TxKeepsJob(db: Db, jobs: map<nat, Job>, made: map<nat, nat>, ordered: map<nat, nat>,
                   task: nat, choice: Option<nat>, silent: bool)
    requires JobsOk(db.tasks, jobs, made, ordered) && RowsOk(db, jobs, made, ordered)
    requires task in jobs && !jobs[task].phase.Calling? && !jobs[task].phase.Ended?
    ensures TxOk(db, task, jobs[task], NextTx(db, task, jobs[task], choice, silent))
  {
    var job := jobs[task];
    assert JobOk(job, Find(db.tasks, task));
    match job.phase
    case Queued => BeginOk(db, jobs, made, ordered, task);
    case Marked => SelectOk(db, task, job, choice);
    case Lookup(_) => LookupOk(db, task, job);
    case Orphan => MournOk(db, task, job);
    case Placing(_, _) => PlaceOk(db, task, job, silent);
    case Closing(_) => CloseOk(db, task, job);
    case Failing => FailOk(db, task, job);
  }

  /** Closing a delete job removes the server row, if it is still there, and nothing else. */
  lemma CloseDeleteShape(db: Db, task: nat, job: Job)
    requires job.phase.Closing? && job.kind.Delete? && job.server.Some?
    ensures var after := Close(db, task, job).db;
      if job.server.value in db.servers then
        && after.servers == db.servers - {job.server.value} && after.nodes == db.nodes
        && after.tasks.Keys == db.tasks.Keys
        && after.backups == (map b | b in db.backups && db.backups[b].server != job.server.value :: db.backups[b])
        && forall t :: t in db.tasks ==> after.tasks[t].server == Unlink(db.tasks, job.server.value)[t].server
      else Tame(db, after, task)
  {
  }

  lemma RemovalKeepsRows(db: Db, jobs: map<nat, Job>, made: map<nat, nat>, ordered: map<nat, nat>, server: nat,
                         task: nat, after: Db, job: Job)
    requires RowsOk(db, jobs, made, ordered) && task in jobs && SameJob(jobs[task], job)
    requires after.servers == db.servers - {server} && after.nodes == db.nodes && after.tasks.Keys == db.tasks.Keys
    requires after.backups == map b | b in db.backups && db.backups[b].server != server :: db.backups[b]
    requires forall t :: t in db.tasks ==> after.tasks[t].server == Unlink(db.tasks, server)[t].server
    ensures RowsOk(after, jobs[task := job], made, ordered)
  {
    assert ServerKeys(after.servers, after.tasks, after.nodes, made);
    RemovalKeepsTaskKeys(db.tasks, db.servers, server, after.tasks);
    RemovalKeepsBackupKeys(db, jobs, ordered, server, after, task, job);
    assert OriginKeys(after.tasks, jobs[task := job], made);
  }

  lemma RemovalKeepsTaskKeys(tasks: map<nat, TaskRow>, servers: map<nat, ServerRow>, server: nat,
                             after: map<nat, TaskRow>)
    requires TaskKeys(tasks, servers) && after.Keys == tasks.Keys
    requires forall t :: t in tasks ==> after[t].server == Unlink(tasks, server)[t].server
    ensures TaskKeys(after, servers - {server})
  {
  }

  lemma RemovalKeepsBackupKeys(db: Db, jobs: map<nat, Job>, ordered: map<nat, nat>, server: nat,
                               after: Db, task: nat, job: Job)
    requires BackupKeys(db.backups, db.servers, db.tasks, jobs, ordered) && RestoreKeys(db.tasks, jobs, ordered)
    requires task in jobs && SameJob(jobs[task], job)
    requires after.servers == db.servers - {server} && after.tasks.Keys == db.tasks.Keys
    requires after.backups == map b | b in db.backups && db.backups[b].server != server :: db.backups[b]
    ensures BackupKeys(after.backups, after.servers, after.tasks, jobs[task := job], ordered)
    ensures RestoreKeys(after.tasks, jobs[task := job], ordered)
  {
  }

  lemma TxKeepsRows(db: Db, jobs: map<nat, Job>, made: map<nat, nat>, ordered: map<nat, nat>,
                    task: nat, choice: Option<nat>, silent: bool)
    requires JobsOk(db.tasks, jobs, made, ordered) && RowsOk(db, jobs, made, ordered)
    requires task in jobs && !jobs[task].phase.Calling? && !jobs[task].phase.Ended?
    ensures var tx := NextTx(db, task, jobs[task], choice, silent);
      RowsOk(tx.db, jobs[task := tx.job], made, ordered)
  {
    var job := jobs[task];
    var tx := NextTx(db, task, job, choice, silent);
    TxKeepsJob(db, jobs, made, ordered, task, choice, silent);
    if job.kind.Delete? && job.phase.Closing? {
      assert JobOk(job, Find(db.tasks, task));
      CloseDeleteShape(db, task, job);
      if job.server.value in db.servers {
        RemovalKeepsRows(db, jobs, made, ordered, job.server.value, task, tx.db, tx.job);
      } else {
        TameKeepsRows(db, jobs, made, ordered, task, tx.db, tx.job);
      }
    } else {
      TxTame(db, task, job, choice, silent);
      TameKeepsRows(db, jobs, made, ordered, task, tx.db, tx.job);
    }
  }

  // ----- API requests

  function RowFor(job: Job): TaskRow {
    TaskRow(Some(job.origin.server), job.kind, TaskStatus.Pending, false, false,
            if UsesBackup(job.kind) then Some(job.origin.backup) else None)
  }

  lemma CommittedTask(db: Db, task: nat, job: Job, owner: nat, resources: Resources)
    ensures Committed(db, task, job, owner, resources).tasks == db.tasks[task := RowFor(job)]
  {
  }

  lemma CommittedNodes(db: Db, task: nat, job: Job, owner: nat, resources: Resources)
    ensures Committed(db, task, job, owner, resources).nodes == db.nodes
  {
  }

  lemma CommitKeepsJobs(tasks: map<nat, TaskRow>, jobs: map<nat, Job>, made: map<nat, nat>, ordered: map<nat, nat>,
                        task: nat)
    requires JobsOk(tasks, jobs, made, ordered) && task in jobs && task !in tasks
    ensures JobsOk(tasks[task := RowFor(jobs[task])], jobs, made, ordered)
  {
    var row := RowFor(jobs[task]);
    assert JobOk(jobs[task], Find(tasks, task));
    assert JobOk(jobs[task], Some(row));
    forall t | t in jobs ensures JobOk(jobs[t], Find(tasks[task := row], t)) {
      if t != task { assert JobOk(jobs[t], Find(tasks, t)); }
    }
  }

  lemma CommitKeepsRows(db: Db, jobs: map<nat, Job>, made: map<nat, nat>, ordered: map<nat, nat>, task: nat,
                        owner: nat, resources: Resources)
    requires TasksHaveJobs(db.tasks, jobs) && Histories(jobs, made, ordered) && RowsOk(db, jobs, made, ordered)
    requires task in jobs && task !in db.tasks && MayCommit(db, jobs[task])
    ensures RowsOk(Committed(db, task, jobs[task], owner, resources), jobs, made, ordered)
  {
    var job := jobs[task];
    match job.kind
    case Provision => CreateKeepsRows(db, jobs, made, ordered, task, owner, resources);
    case Backup => OrderKeepsRows(db, jobs, made, ordered, task, owner, resources);
    case _ => PlainCommitKeepsRows(db, jobs, made, ordered, task, owner, resources);
  }

  lemma CreateKeepsRows(db: Db, jobs: map<nat, Job>, made: map<nat, nat>, ordered: map<nat, nat>, task: nat,
                        owner: nat, resources: Resources)
    requires TasksHaveJobs(db.tasks, jobs) && Histories(jobs, made, ordered) && RowsOk(db, jobs, made, ordered)
    requires task in jobs && task !in db.tasks && jobs[task].kind.Provision?
    ensures RowsOk(Committed(db, task, jobs[task], owner, resources), jobs, made, ordered)
  {
    var after := Committed(db, task, jobs[task], owner, resources);
    assert ServerKeys(after.servers, after.tasks, after.nodes, made);
    assert TaskKeys(after.tasks, after.servers);
    assert BackupKeys(after.backups, after.servers, after.tasks, jobs, ordered);
    assert RestoreKeys(after.tasks, jobs, ordered);
    assert OriginKeys(after.tasks, jobs, made);
  }

  lemma OrderKeepsRows(db: Db, jobs: map<nat, Job>, made: map<nat, nat>, ordered: map<nat, nat>, task: nat,
                       owner: nat, resources: Resources)
    requires TasksHaveJobs(db.tasks, jobs) && Histories(jobs, made, ordered) && RowsOk(db, jobs, made, ordered)
    requires task in jobs && task !in db.tasks && MayCommit(db, jobs[task]) && jobs[task].kind.Backup?
    ensures RowsOk(Committed(db, task, jobs[task], owner, resources), jobs, made, ordered)
  {
    hide EachJobOk, ServerKeys, TaskKeys, BackupKeys, RestoreKeys, OriginKeys, TasksHaveJobs;
    var Origin(server, backup) := jobs[task].origin;
    var tasks := db.tasks[task := RowFor(jobs[task])];
    MoreTasks(db, tasks, made, task, server);
    NewTaskKeys(db.tasks, db.servers, db.nodes, db.backups, jobs, made, ordered, task, tasks);
    NewBackupKeys(db, jobs, ordered, task, tasks);
  }

  lemma MoreTasks(db: Db, tasks: map<nat, TaskRow>, made: map<nat, nat>, task: nat, server: nat)
    requires ServerKeys(db.servers, db.tasks, db.nodes, made) && TaskKeys(db.tasks, db.servers) && server in db.servers
    requires task in tasks && tasks == db.tasks[task := tasks[task]] && tasks[task].server == Some(server)
    ensures ServerKeys(db.servers, tasks, db.nodes, made) && TaskKeys(tasks, db.servers)
  {
  }

  lemma NewBackupKeys(db: Db, jobs: map<nat, Job>, ordered: map<nat, nat>, task: nat, tasks: map<nat, TaskRow>)
    requires BackupKeys(db.backups, db.servers, db.tasks, jobs, ordered)
    requires task in jobs && jobs[task].origin.server in db.servers && tasks.Keys == db.tasks.Keys + {task}
    requires jobs[task].origin.backup in ordered && ordered[jobs[task].origin.backup] == task
    ensures var Origin(server, backup) := jobs[task].origin;
      BackupKeys(db.backups[backup := BackupRow(server, Key(server, backup), BackupStatus.Creating, 0)], db.servers,
                 tasks, jobs, ordered)
  {
  }

  lemma PlainCommitKeepsRows(db: Db, jobs: map<nat, Job>, made: map<nat, nat>, ordered: map<nat, nat>, task: nat,
                             owner: nat, resources: Resources)
    requires TasksHaveJobs(db.tasks, jobs) && RowsOk(db, jobs, made, ordered)
    requires task in jobs && task !in db.tasks && MayCommit(db, jobs[task])
    requires !jobs[task].kind.Provision? && !jobs[task].kind.Backup?
    ensures RowsOk(Committed(db, task, jobs[task], owner, resources), jobs, made, ordered)
  {
    hide *;
    PlainCommitShape(db, task, jobs[task], owner, resources);
    OneMoreTask(db, jobs, made, ordered, task, Committed(db, task, jobs[task], owner, resources));
  }

  lemma OneMoreTask(db: Db, jobs: map<nat, Job>, made: map<nat, nat>, ordered: map<nat, nat>, task: nat, after: Db)
    requires RowsOk(db, jobs, made, ordered) && task in jobs && task !in db.tasks
    requires PlainShape(db, task, jobs[task], after)
    ensures RowsOk(after, jobs, made, ordered)
  {
    hide RestoreKeys, OriginKeys;
    NewTaskKeys(db.tasks, db.servers, db.nodes, db.backups, jobs, made, ordered, task, after.tasks);
    assert ServerKeys(after.servers, after.tasks, after.nodes, made) by { hide TaskKeys, BackupKeys; }
    assert TaskKeys(after.tasks, after.servers) by {
      hide ServerKeys, BackupKeys;
    }
    assert BackupKeys(after.backups, after.servers, after.tasks, jobs, ordered) by { hide ServerKeys, TaskKeys; }
  }

  lemma NewTaskKeys(tasks: map<nat, TaskRow>, servers: map<nat, ServerRow>, nodes: map<nat, NodeRow>,
                    backups: map<nat, BackupRow>, jobs: map<nat, Job>, made: map<nat, nat>, ordered: map<nat, nat>,
                    task: nat, after: map<nat, TaskRow>)
    requires ServerKeys(servers, tasks, nodes, made) && BackupKeys(backups, servers, tasks, jobs, ordered)
    requires RestoreKeys(tasks, jobs, ordered) && OriginKeys(tasks, jobs, made)
    requires task in jobs && jobs[task].origin.server in servers && after.Keys == tasks.Keys + {task}
    requires jobs[task].kind.Restore? ==>
               jobs[task].origin.backup in backups
                 && backups[jobs[task].origin.backup].server == jobs[task].origin.server
    ensures RestoreKeys(after, jobs, ordered) && OriginKeys(after, jobs, made)
  {
  }

  /** A commit that adds a task for an existing server and changes at most a server's status. */
  ghost predicate PlainShape(db: Db, task: nat, job: Job, after: Db) {
    && after.tasks == db.tasks[task := RowFor(job)] && after.backups == db.backups && after.nodes == db.nodes
    && after.servers.Keys == db.servers.Keys && job.origin.server in db.servers
    && (forall s :: s in db.servers ==> after.servers[s].node == db.servers[s].node)
    && (job.kind.Restore? ==>
          job.origin.backup in db.backups && db.backups[job.origin.backup].server == job.origin.server)
  }

  lemma PlainCommitShape(db: Db, task: nat, job: Job, owner: nat, resources: Resources)
    requires MayCommit(db, job) && !job.kind.Provision? && !job.kind.Backup?
    ensures PlainShape(db, task, job, Committed(db, task, job, owner, resources))
  {
  }

  lemma EnqueueKeepsJobs(st: State, task: nat, kind: Kind, origin: Origin)
    requires JobsOk(st.db.tasks, st.jobs, st.made, st.ordered) && Enabled(st, Enqueue(task, kind, origin))
    ensures var after := Enqueued(st, task, kind, origin);
      JobsOk(st.db.tasks, after.jobs, after.made, after.ordered)
  {
    var after := Enqueued(st, task, kind, origin);
    NewJobsOk(st.db.tasks, st.jobs, task, kind, origin);
    NewHistories(st, task, kind, origin);
  }

  lemma NewJobsOk(tasks: map<nat, TaskRow>, jobs: map<nat, Job>, task: nat, kind: Kind, origin: Origin)
    requires EachJobOk(tasks, jobs) && TasksHaveJobs(tasks, jobs) && task !in jobs
    ensures EachJobOk(tasks, jobs[task := NewJob(kind, origin)])
  {
    assert JobOk(NewJob(kind, origin), None);
    forall t | t in jobs ensures JobOk(jobs[t], Find(tasks, t)) {
    }
  }

  lemma NewHistories(st: State, task: nat, kind: Kind, origin: Origin)
    requires Histories(st.jobs, st.made, st.ordered)
    requires task !in st.jobs && (kind.Provision? ==> origin.server !in st.made)
    requires kind.Backup? ==> origin.backup !in st.ordered
    ensures var after := Enqueued(st, task, kind, origin); Histories(after.jobs, after.made, after.ordered)
  {
  }

  lemma EnqueueKeepsRows(st: State, task: nat, kind: Kind, origin: Origin)
    requires RowsOk(st.db, st.jobs, st.made, st.ordered) && TasksHaveJobs(st.db.tasks, st.jobs)
    requires task !in st.jobs && (kind.Provision? ==> origin.server !in st.made)
    requires kind.Backup? ==> origin.backup !in st.ordered
    ensures var after := Enqueued(st, task, kind, origin); RowsOk(st.db, after.jobs, after.made, after.ordered)
  {
    hide RowsOk, TasksHaveJobs;
    var after := Enqueued(st, task, kind, origin);
    MoreHistory(st.db, st.jobs, st.made, st.ordered, task, after.jobs[task], after.made, after.ordered);
  }

  /** Rows stay consistent when the histories grow. */
  lemma MoreHistory(db: Db, jobs: map<nat, Job>, made: map<nat, nat>, ordered: map<nat, nat>,
                    task: nat, job: Job, made': map<nat, nat>, ordered': map<nat, nat>)
    requires RowsOk(db, jobs, made, ordered) && TasksHaveJobs(db.tasks, jobs) && task !in jobs
    requires forall s :: s in made ==> s in made' && made'[s] == made[s]
    requires forall b :: b in ordered ==> b in ordered' && ordered'[b] == ordered[b]
    ensures RowsOk(db, jobs[task := job], made', ordered')
  {
    hide ServerKeys, TaskKeys, BackupKeys, RestoreKeys, OriginKeys;
    MoreServerHistory(db.servers, db.tasks, db.nodes, made, made');
    MoreBackupHistory(db.backups, db.servers, db.tasks, jobs, ordered, task, job, ordered');
    MoreTaskHistory(db.tasks, jobs, made, ordered, task, job, made', ordered');
  }

  lemma MoreServerHistory(servers: map<nat, ServerRow>, tasks: map<nat, TaskRow>, nodes: map<nat, NodeRow>,
                          made: map<nat, nat>, made': map<nat, nat>)
    requires ServerKeys(servers, tasks, nodes, made)
    requires forall s :: s in made ==> s in made' && made'[s] == made[s]
    ensures ServerKeys(servers, tasks, nodes, made')
  {
  }

  lemma MoreBackupHistory(backups: map<nat, BackupRow>, servers: map<nat, ServerRow>, tasks: map<nat, TaskRow>,
                          jobs: map<nat, Job>, ordered: map<nat, nat>, task: nat, job: Job, ordered': map<nat, nat>)
    requires BackupKeys(backups, servers, tasks, jobs, ordered) && task !in jobs
    requires forall b :: b in ordered ==> b in ordered' && ordered'[b] == ordered[b]
    ensures BackupKeys(backups, servers, tasks, jobs[task := job], ordered')
  {
  }

  lemma MoreTaskHistory(tasks: map<nat, TaskRow>, jobs: map<nat, Job>, made: map<nat, nat>, ordered: map<nat, nat>,
                        task: nat, job: Job, made': map<nat, nat>, ordered': map<nat, nat>)
    requires RestoreKeys(tasks, jobs, ordered) && OriginKeys(tasks, jobs, made)
    requires TasksHaveJobs(tasks, jobs) && task !in jobs
    requires forall s :: s in made ==> s in made' && made'[s] == made[s]
    requires forall b :: b in ordered ==> b in ordered' && ordered'[b] == ordered[b]
    ensures RestoreKeys(tasks, jobs[task := job], ordered') && OriginKeys(tasks, jobs[task := job], made')
  {
    var jobs' := jobs[task := job];
    forall t | t in tasks ensures t in jobs && jobs'[t] == jobs[t] {
    }
    assert RestoreKeys(tasks, jobs', ordered') by { hide OriginKeys; }
    assert OriginKeys(tasks, jobs', made') by { hide RestoreKeys; }
  }

  // ----- every step

  ghost predicate HostsOk(nodes: map<nat, NodeRow>, hosts: map<nat, Option<nat>>) {
    forall n :: n in nodes ==>
      && n in hosts && (hosts[n].Some? ==> hosts[n].value == nodes[n].endpoint)
      && nodes[n].capacity.cpu > 0.0
  }

  ghost predicate Core(st: State) {
    && JobsOk(st.db.tasks, st.jobs, st.made, st.ordered)
    && RowsOk(st.db, st.jobs, st.made, st.ordered)
    && HostsOk(st.db.nodes, st.hosts)
  }

  lemma AttemptKeepsCore(st: State, task: nat, net: Net, id: nat, size: nat)
    requires Core(st) && task in st.jobs && st.jobs[task].phase.Calling?
    ensures Core(Deliver(st, task, net, id, size))
  {
    hide RowsOk, JobOk, Serve, Seen, React, Histories, TasksHaveJobs;
    var job := st.jobs[task];
    var outcome := Seen(net, Serve(st.cloud, job.phase.endpoint, job.phase.request, id, size, false).1);
    assert JobOk(job, Find(st.db.tasks, task));
    ReactOk(job, Find(st.db.tasks, task), outcome);
    JobsOkAfter(st.db.tasks, st.jobs, st.made, st.ordered, task, React(job, outcome), st.db.tasks);
    TameKeepsRows(st.db, st.jobs, st.made, st.ordered, task, st.db, React(job, outcome));
  }

  lemma ThrowKeepsCore(st: State, task: nat)
    requires Core(st) && Enabled(st, Throw(task))
    ensures Core(Run(st, task, Tx(st.db, st.jobs[task].(phase := Failing))))
  {
    hide RowsOk, JobOk, Histories, TasksHaveJobs;
    var job := st.jobs[task];
    assert JobOk(job, Find(st.db.tasks, task));
    ThrowOk(job, Find(st.db.tasks, task));
    JobsOkAfter(st.db.tasks, st.jobs, st.made, st.ordered, task, job.(phase := Failing), st.db.tasks);
    TameKeepsRows(st.db, st.jobs, st.made, st.ordered, task, st.db, job.(phase := Failing));
  }

  lemma TransactKeepsCore(st: State, task: nat, choice: Option<nat>, silent: bool)
    requires MayTransact(st, task) && Core(st)
    ensures Core(Run(st, task, NextTx(st.db, task, st.jobs[task], choice, silent)))
  {
    var tx := NextTx(st.db, task, st.jobs[task], choice, silent);
    TxKeepsJob(st.db, st.jobs, st.made, st.ordered, task, choice, silent);
    JobsOkAfter(st.db.tasks, st.jobs, st.made, st.ordered, task, tx.job, tx.db.tasks);
    TxKeepsRows(st.db, st.jobs, st.made, st.ordered, task, choice, silent);
    TxKeepsNodes(st.db, task, st.jobs[task], choice, silent);
  }

  lemma TxKeepsNodes(db: Db, task: nat, job: Job, choice: Option<nat>, silent: bool)
    requires !job.phase.Calling? && !job.phase.Ended?
    ensures NextTx(db, task, job, choice, silent).db.nodes == db.nodes
  {
    if job.kind.Delete? && job.phase.Closing? {
    } else {
      TxTame(db, task, job, choice, silent);
    }
  }

  lemma CommitKeepsCore(st: State, task: nat, owner: nat, resources: Resources)
    requires Core(st) && Enabled(st, Commit(task, owner, resources))
    ensures Core(Apply(st, Commit(task, owner, resources)))
  {
    var job := st.jobs[task];
    CommittedTask(st.db, task, job, owner, resources);
    CommittedNodes(st.db, task, job, owner, resources);
    CommitKeepsJobs(st.db.tasks, st.jobs, st.made, st.ordered, task);
    CommitKeepsRows(st.db, st.jobs, st.made, st.ordered, task, owner, resources);
  }

  lemma RemoveNodeKeepsCore(st: State, node: nat)
    requires Core(st)
    ensures Core(st.(db := DeleteNode(st.db, node)))
  {
    hide JobsOk;
    var db := DeleteNode(st.db, node);
    assert ServerKeys(db.servers, db.tasks, db.nodes, st.made) by {
      hide TaskKeys, BackupKeys, RestoreKeys, OriginKeys;
    }
    assert TaskKeys(db.tasks, db.servers) by { hide ServerKeys, BackupKeys, RestoreKeys, OriginKeys; }
    assert BackupKeys(db.backups, db.servers, db.tasks, st.jobs, st.ordered) by {
      hide ServerKeys, TaskKeys, RestoreKeys, OriginKeys;
    }
  }

  lemma PatchKeepsCore(st: State, server: nat, resources: Resources)
    requires Core(st)
    ensures Core(st.(db := PatchServer(st.db, server, resources)))
  {
    hide JobsOk, RestoreKeys, OriginKeys;
    var servers := PatchServer(st.db, server, resources).servers;
    assert ServerKeys(servers, st.db.tasks, st.db.nodes, st.made) by { hide TaskKeys, BackupKeys; }
    assert TaskKeys(st.db.tasks, servers) by { hide ServerKeys, BackupKeys; }
    assert BackupKeys(st.db.backups, servers, st.db.tasks, st.jobs, st.ordered) by { hide ServerKeys, TaskKeys; }
  }

  lemma StepKeepsCore(st: State, step: Step)
    requires Core(st) && Enabled(st, step)
    ensures Core(Apply(st, step))
  {
    hide EachJobOk, Histories, TaskKeys, BackupKeys, RestoreKeys, OriginKeys, NextTx, Committed, Deliver,
      SelectorMayReturn, Serve;
    match step
    case Enqueue(task, kind, origin) =>
      EnqueueKeepsJobs(st, task, kind, origin);
      EnqueueKeepsRows(st, task, kind, origin);
    case Commit(task, owner, resources) => CommitKeepsCore(st, task, owner, resources);
    case Patch(server, resources) => PatchKeepsCore(st, server, resources);
    case AddNode(node, row) =>
    case RemoveNode(node) => RemoveNodeKeepsCore(st, node);
    case PatchNode(node, endpoint, status, capacity) =>
    case Late(stray, id, size) =>
    case Transact(task, choice, silent) => TransactKeepsCore(st, task, choice, silent);
    case Attempt(task, net, id, size) => AttemptKeepsCore(st, task, net, id, size);
    case Throw(task) => ThrowKeepsCore(st, task);
  }
}
