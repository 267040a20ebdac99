/** Every transaction of every job, stated by what its reader sees: under which condition the job goes
    on and to whom it turns, which rows are other than before, and that all others are the same. */
module JobStages {
  import opened Wrappers
  import opened Rows
  import opened Repositories
  import opened Agent
  import opened Jobs
  import opened Protocol

  /** One row of the table gets a status; `begins` sets `started_at`, a final status `finished_at`. */
  predicate TaskGets(tasks: map<nat, TaskRow>, after: map<nat, TaskRow>, task: nat, status: TaskStatus, begins: bool) {
    && after.Keys == tasks.Keys
    && forall t :: t in tasks ==>
         if t != task then after[t] == tasks[t]
         else after[t] == TaskRow(tasks[t].server, tasks[t].kind, status, begins || tasks[t].started,
                                  status == TaskStatus.Succeeded || status == TaskStatus.Failed || tasks[t].finished,
                                  tasks[t].backup)
  }

  predicate ServerGets(servers: map<nat, ServerRow>, after: map<nat, ServerRow>, server: Option<nat>,
                       status: ServerStatus)
  {
    && after.Keys == servers.Keys
    && forall s :: s in servers ==>
         if Some(s) != server then after[s] == servers[s]
         else after[s] == ServerRow(servers[s].owner, status, servers[s].node, servers[s].container,
                                    servers[s].resources)
  }

  predicate BackupGets(backups: map<nat, BackupRow>, after: map<nat, BackupRow>, backup: Option<nat>,
                       status: BackupStatus)
  {
    && after.Keys == backups.Keys
    && forall b :: b in backups ==>
         if Some(b) != backup then after[b] == backups[b]
         else after[b] == BackupRow(backups[b].server, backups[b].key, status, backups[b].size)
  }

  predicate Logs(audit: seq<AuditRow>, after: seq<AuditRow>, action: Action, target: Option<nat>) {
    && |after| == |audit| + 1 && after[..|audit|] == audit
    && after[|audit|].action == action && (target.Some? ==> after[|audit|].target == target.value)
  }

  /** The task names a server that has a row with a node and a container. */
  predicate Placed(db: Db, task: nat) {
    && task in db.tasks && db.tasks[task].server.Some? && db.tasks[task].server.value in db.servers
    && db.servers[db.tasks[task].server.value].node.Some?
    && db.servers[db.tasks[task].server.value].container.Some?
  }

  /** The job now asks the agent of this node, at the endpoint its row names, for the first time; if
      the row is gone it will record that. Of its locals only those are new that are given here. */
  predicate Turns(db: Db, job: Job, after: Job, early: bool, server: Option<nat>, container: Option<nat>,
                  backup: Option<nat>, node: nat, request: Request)
  {
    after == if node in db.nodes
      then Job(job.kind, job.origin, Calling(node, db.nodes[node].endpoint, request, 0), server, container, backup,
               Some(Route(node, db.nodes[node].endpoint)), job.ask, early)
      else Job(job.kind, job.origin, Orphan, server, container, backup, job.agent, job.ask, early)
  }

  // ----- first transactions

  /** A provision begins unconditionally: it marks its task, or notes that there is none yet. */
  lemma ProvisionBegins(db: Db, task: nat, job: Job, choice: Option<nat>, silent: bool)
    requires job.phase.Queued? && job.kind == Kind.Provision
    ensures var tx := NextTx(db, task, job, choice, silent);
      && tx.db == db.(tasks := tx.db.tasks) && TaskGets(db.tasks, tx.db.tasks, task, TaskStatus.Running, true)
      && tx.job == job.(phase := Marked, early := task !in db.tasks)
  {
  }

  /** A start, stop or restart goes on if and only if its task names a server with a node and a
      container; it then asks for its own action on that container. A server without them fails the
      task, and a task that is missing or has lost its server is left as it is, but marked running. */
  lemma LifecycleBegins(db: Db, task: nat, job: Job, choice: Option<nat>, silent: bool)
    requires job.phase.Queued? && (job.kind == Start || job.kind == Stop || job.kind == Restart)
    ensures var tx := NextTx(db, task, job, choice, silent);
      var named := task in db.tasks && db.tasks[task].server.Some?;
      && tx.db == db.(tasks := tx.db.tasks)
      && TaskGets(db.tasks, tx.db.tasks, task,
                  if named && !Placed(db, task) then TaskStatus.Failed else TaskStatus.Running, true)
      && (!tx.job.phase.Ended? <==> Placed(db, task))
      && (Placed(db, task) ==>
            var row := db.servers[db.tasks[task].server.value];
            Turns(db, job, tx.job, false, db.tasks[task].server, row.container, job.backup,
                  row.node.value, ActOn(row.container.value, job.kind)))
      && (!Placed(db, task) ==>
            tx.job == job.(phase := Ended, early := task !in db.tasks,
                           server := if named then db.tasks[task].server else job.server))
  {
    hide DeleteBegin, BackupBegin, RestoreBegin;
  }

  /** A delete succeeds at once if the server row is gone. Otherwise it looks the node up if the row has
      both a node and a container, and goes straight to removing the row if it lacks one. */
  lemma DeleteBegins(db: Db, task: nat, job: Job, choice: Option<nat>, silent: bool)
    requires job.phase.Queued? && job.kind == Kind.Delete
    ensures var tx := NextTx(db, task, job, choice, silent);
      var named := task in db.tasks && db.tasks[task].server.Some?;
      var found := named && db.tasks[task].server.value in db.servers;
      && tx.db == db.(tasks := tx.db.tasks)
      && TaskGets(db.tasks, tx.db.tasks, task,
                  if named && !found then TaskStatus.Succeeded else TaskStatus.Running, true)
      && (!tx.job.phase.Ended? <==> found)
      && (found ==>
            var row := db.servers[db.tasks[task].server.value];
            tx.job == job.(server := db.tasks[task].server, container := row.container, early := false,
                           phase := if Placed(db, task) then Lookup(row.node.value) else Closing(0)))
      && (!found ==>
            tx.job == job.(phase := Ended, early := task !in db.tasks,
                           server := if named then db.tasks[task].server else job.server))
  {
    hide LifecycleBegin, BackupBegin, RestoreBegin;
  }

  /** A backup goes on if and only if its task names a server with a node and a container, whatever its
      status, and a backup that has a row; it then asks for that container and volume under the row's
      key. Otherwise it fails task and backup. */
  lemma BackupBegins(db: Db, task: nat, job: Job, choice: Option<nat>, silent: bool)
    requires job.phase.Queued? && job.kind == Kind.Backup
    ensures var tx := NextTx(db, task, job, choice, silent);
      var backup := if task in db.tasks then db.tasks[task].backup else None;
      var goes := Placed(db, task) && backup.Some? && backup.value in db.backups;
      && tx.db == db.(tasks := tx.db.tasks, backups := tx.db.backups)
      && TaskGets(db.tasks, tx.db.tasks, task, if goes then TaskStatus.Running else TaskStatus.Failed, true)
      && (!tx.job.phase.Ended? <==> goes)
      && (goes ==>
            var server := db.tasks[task].server;
            var row := db.servers[server.value];
            && tx.db.backups == db.backups
            && Turns(db, job, tx.job, false, server, row.container, backup, row.node.value,
                     RunBackup(row.container.value, server.value, db.backups[backup.value].key)))
      && (!goes ==>
            && BackupGets(db.backups, tx.db.backups, backup, BackupStatus.Failed)
            && tx.job == if task !in db.tasks then job.(phase := Ended, early := true)
               else job.(phase := Ended, early := false, server := db.tasks[task].server, backup := backup))
  {
    hide LifecycleBegin, DeleteBegin, RestoreBegin;
  }

  /** A restore goes on if and only if, besides, the server is stopped; it fails the task and leaves the
      backup alone otherwise. */
  lemma RestoreBegins(db: Db, task: nat, job: Job, choice: Option<nat>, silent: bool)
    requires job.phase.Queued? && job.kind == Kind.Restore
    ensures var tx := NextTx(db, task, job, choice, silent);
      var backup := if task in db.tasks then db.tasks[task].backup else None;
      var goes := Placed(db, task) && backup.Some? && backup.value in db.backups
        && db.servers[db.tasks[task].server.value].status == ServerStatus.Stopped;
      && tx.db == db.(tasks := tx.db.tasks)
      && TaskGets(db.tasks, tx.db.tasks, task, if goes then TaskStatus.Running else TaskStatus.Failed, true)
      && (!tx.job.phase.Ended? <==> goes)
      && (goes ==>
            var server := db.tasks[task].server;
            var row := db.servers[server.value];
            Turns(db, job, tx.job, false, server, row.container, backup, row.node.value,
                  RunRestore(row.container.value, server.value, db.backups[backup.value].key)))
      && (!goes ==>
            tx.job == if task !in db.tasks then job.(phase := Ended, early := true)
              else job.(phase := Ended, early := false, server := db.tasks[task].server, backup := backup))
  {
    hide LifecycleBegin, DeleteBegin, BackupBegin;
  }

  // ----- the transactions in the middle

  /** A provision asks the chosen node for a container if and only if its task names a server that has a
      row and a node was chosen; then the server is provisioning. Otherwise it fails without a change. */
  lemma ProvisionChooses(db: Db, task: nat, job: Job, choice: Option<nat>, silent: bool)
    requires job.phase.Marked?
    ensures var tx := NextTx(db, task, job, choice, silent);
      var named := task in db.tasks && db.tasks[task].server.Some?;
      var goes := named && db.tasks[task].server.value in db.servers && choice.Some? && choice.value in db.nodes;
      && tx.db == db.(servers := tx.db.servers)
      && (goes ==>
            var server := db.tasks[task].server;
            && ServerGets(db.servers, tx.db.servers, server, ServerStatus.Provisioning)
            && Turns(db, job.(ask := db.servers[server.value].resources), tx.job, job.early, server, job.container,
                     job.backup, choice.value, CreateContainer(server.value)))
      && (!goes ==>
            && tx.db == db
            && tx.job == job.(phase := Failing, server := if named then db.tasks[task].server else job.server))
  {
    hide Begin, Place, Close, Fail;
  }

  /** A delete asks the agent to remove the container if the node row is there, and otherwise goes on
      to remove the server row; it changes nothing here. */
  lemma DeleteLooksUp(db: Db, task: nat, job: Job, choice: Option<nat>, silent: bool)
    requires job.phase.Lookup?
    ensures var tx := NextTx(db, task, job, choice, silent);
      && tx.db == db
      && (if job.phase.node in db.nodes && job.container.Some?
          then Turns(db, job, tx.job, job.early, job.server, job.container, job.backup, job.phase.node,
                     RemoveContainer(job.container.value))
          else tx.job == job.(phase := Closing(0)))
  {
  }

  /** A missing node row fails the task, and of a backup job the backup too; nothing is logged. */
  lemma MissingNodeFails(db: Db, task: nat, job: Job, choice: Option<nat>, silent: bool)
    requires job.phase.Orphan?
    ensures var tx := NextTx(db, task, job, choice, silent);
      && tx.db == db.(tasks := tx.db.tasks, backups := tx.db.backups)
      && TaskGets(db.tasks, tx.db.tasks, task, TaskStatus.Failed, false)
      && (if job.kind == Kind.Backup then BackupGets(db.backups, tx.db.backups, job.backup, BackupStatus.Failed)
          else tx.db.backups == db.backups)
      && tx.job == job.(phase := Ended)
  {
    hide Begin, ProvisionSelect, Place, Close, Fail;
  }

  /** A placement puts node, container and `running` into the server row and one row into the log, and
      needs both rows to be there; a vanished server row may also go unnoticed, and is then logged. */
  lemma ProvisionPlaces(db: Db, task: nat, job: Job, choice: Option<nat>, silent: bool)
    requires job.phase.Placing?
    ensures var tx := NextTx(db, task, job, choice, silent);
      var found := job.server.Some? && job.server.value in db.servers;
      && (tx.job == job.(phase := Closing(0)) || tx.job == job.(phase := Failing))
      && (tx.job.phase.Closing? <==> if found then job.phase.node in db.nodes else silent)
      && (tx.job.phase.Failing? ==> tx.db == db)
      && (tx.job.phase.Closing? ==>
            && tx.db == db.(servers := tx.db.servers, audit := tx.db.audit)
            && Logs(db.audit, tx.db.audit, Completed(Kind.Provision), job.server)
            && tx.db.servers.Keys == db.servers.Keys
            && forall s :: s in db.servers ==>
                 if Some(s) != job.server then tx.db.servers[s] == db.servers[s]
                 else tx.db.servers[s] == ServerRow(db.servers[s].owner, ServerStatus.Running, Some(job.phase.node),
                                                    Some(job.phase.container), db.servers[s].resources))
  {
    hide Begin, ProvisionSelect, Close, Fail;
  }

  // ----- success

  lemma ProvisionCloses(db: Db, task: nat, job: Job, choice: Option<nat>, silent: bool)
    requires job.phase.Closing? && job.kind == Kind.Provision
    ensures var tx := NextTx(db, task, job, choice, silent);
      && tx.db == db.(tasks := tx.db.tasks) && TaskGets(db.tasks, tx.db.tasks, task, TaskStatus.Succeeded, false)
      && tx.job == job.(phase := Ended)
  {
    hide Begin, ProvisionSelect, Place, Fail;
  }

  lemma StatusSet(db: Db, server: Option<nat>, status: ServerStatus)
    ensures var after := SetStatus(db, server, status);
      after == db.(servers := after.servers) && ServerGets(db.servers, after.servers, server, status)
  {
  }

  /** A start or restart leaves the server running, a stop leaves it stopped; one row is logged. */
  lemma LifecycleCloses(db: Db, task: nat, job: Job, choice: Option<nat>, silent: bool)
    requires job.phase.Closing? && (job.kind == Start || job.kind == Stop || job.kind == Restart)
    ensures var tx := NextTx(db, task, job, choice, silent);
      && tx.db == db.(servers := tx.db.servers, tasks := tx.db.tasks, audit := tx.db.audit)
      && ServerGets(db.servers, tx.db.servers, job.server,
                    if job.kind == Stop then ServerStatus.Stopped else ServerStatus.Running)
      && TaskGets(db.tasks, tx.db.tasks, task, TaskStatus.Succeeded, false)
      && Logs(db.audit, tx.db.audit, Completed(job.kind), job.server)
      && tx.job == job.(phase := Ended)
  {
    hide Begin, ProvisionSelect, Place, Fail, SetStatus, ServerGets;
    StatusSet(db, job.server, if job.kind == Stop then ServerStatus.Stopped else ServerStatus.Running);
  }

  /** A delete takes the server row away with all backups of the server, and every task that named it
      names none; its own task has succeeded. */
  lemma DeleteCloses(db: Db, task: nat, job: Job, choice: Option<nat>, silent: bool)
    requires job.phase.Closing? && job.kind == Kind.Delete && job.server.Some? && job.server.value in db.servers
    ensures var tx := NextTx(db, task, job, choice, silent);
      var server := job.server.value;
      && tx.db.nodes == db.nodes && tx.job == job.(phase := Ended)
      && (forall s :: s in tx.db.servers <==> s in db.servers && s != server)
      && (forall s :: s in tx.db.servers ==> tx.db.servers[s] == db.servers[s])
      && (forall b :: b in tx.db.backups <==> b in db.backups && db.backups[b].server != server)
      && (forall b :: b in tx.db.backups ==> tx.db.backups[b] == db.backups[b])
      && Logs(db.audit, tx.db.audit, Completed(Kind.Delete), job.server)
      && tx.db.tasks.Keys == db.tasks.Keys
      && forall t :: t in db.tasks ==>
           var row := db.tasks[t];
           tx.db.tasks[t] == TaskRow(if row.server == Some(server) then None else row.server, row.kind,
                                     if t == task then TaskStatus.Succeeded else row.status, row.started,
                                     t == task || row.finished, row.backup)
  {
    hide Begin, ProvisionSelect, Place, Fail;
  }

  /** With the server row gone already, a delete only finishes its task and logs. */
  lemma DeleteClosesGone(db: Db, task: nat, job: Job, choice: Option<nat>, silent: bool)
    requires job.phase.Closing? && job.kind == Kind.Delete && !(job.server.Some? && job.server.value in db.servers)
    ensures var tx := NextTx(db, task, job, choice, silent);
      && tx.db == db.(tasks := tx.db.tasks, audit := tx.db.audit) && tx.job == job.(phase := Ended)
      && TaskGets(db.tasks, tx.db.tasks, task, TaskStatus.Succeeded, false)
      && Logs(db.audit, tx.db.audit, Completed(Kind.Delete), job.server)
  {
    hide Begin, ProvisionSelect, Place, Fail;
  }

  /** A backup becomes available with the size the agent gave, with its task and one row in the log. */
  lemma BackupCloses(db: Db, task: nat, job: Job, choice: Option<nat>, silent: bool)
    requires job.phase.Closing? && job.kind == Kind.Backup
    ensures var tx := NextTx(db, task, job, choice, silent);
      && tx.db == db.(tasks := tx.db.tasks, backups := tx.db.backups, audit := tx.db.audit)
      && tx.db.backups.Keys == db.backups.Keys
      && (forall b :: b in db.backups ==>
            tx.db.backups[b] == if Some(b) != job.backup then db.backups[b]
              else BackupRow(db.backups[b].server, db.backups[b].key, BackupStatus.Available, job.phase.size))
      && TaskGets(db.tasks, tx.db.tasks, task, TaskStatus.Succeeded, false)
      && Logs(db.audit, tx.db.audit, Completed(Kind.Backup), job.backup)
      && tx.job == job.(phase := Ended)
  {
    hide Begin, ProvisionSelect, Place, Fail;
  }

  lemma RestoreCloses(db: Db, task: nat, job: Job, choice: Option<nat>, silent: bool)
    requires job.phase.Closing? && job.kind == Kind.Restore
    ensures var tx := NextTx(db, task, job, choice, silent);
      && tx.db == db.(tasks := tx.db.tasks, audit := tx.db.audit)
      && TaskGets(db.tasks, tx.db.tasks, task, TaskStatus.Succeeded, false)
      && Logs(db.audit, tx.db.audit, Completed(Kind.Restore), job.backup)
      && tx.job == job.(phase := Ended)
  {
    hide Begin, ProvisionSelect, Place, Fail;
  }

  // ----- failure

  /** A provision that knows its server marks it failed, with its task. */
  lemma ProvisionFails(db: Db, task: nat, job: Job, choice: Option<nat>, silent: bool)
    requires job.phase.Failing? && job.kind == Kind.Provision
    ensures var tx := NextTx(db, task, job, choice, silent);
      && tx.db == db.(servers := tx.db.servers, tasks := tx.db.tasks)
      && ServerGets(db.servers, tx.db.servers, job.server, ServerStatus.Failed)
      && TaskGets(db.tasks, tx.db.tasks, task, TaskStatus.Failed, false)
      && tx.job == job.(phase := Ended)
  {
    hide Begin, ProvisionSelect, Place, Close;
  }

  /** A backup that fails takes its row and its task along and is logged. */
  lemma BackupFails(db: Db, task: nat, job: Job, choice: Option<nat>, silent: bool)
    requires job.phase.Failing? && job.kind == Kind.Backup
    ensures var tx := NextTx(db, task, job, choice, silent);
      && tx.db == db.(tasks := tx.db.tasks, backups := tx.db.backups, audit := tx.db.audit)
      && BackupGets(db.backups, tx.db.backups, job.backup, BackupStatus.Failed)
      && TaskGets(db.tasks, tx.db.tasks, task, TaskStatus.Failed, false)
      && Logs(db.audit, tx.db.audit, BackupFailed, job.backup)
      && tx.job == job.(phase := Ended)
  {
    hide Begin, ProvisionSelect, Place, Close;
  }

  /** Any other failure marks the task and touches nothing else: the server keeps its status. */
  lemma OthersFail(db: Db, task: nat, job: Job, choice: Option<nat>, silent: bool)
    requires job.phase.Failing? && job.kind != Kind.Provision && job.kind != Kind.Backup
    ensures var tx := NextTx(db, task, job, choice, silent);
      && tx.db == db.(tasks := tx.db.tasks)
      && TaskGets(db.tasks, tx.db.tasks, task, TaskStatus.Failed, false)
      && tx.job == job.(phase := Ended)
  {
    hide Begin, ProvisionSelect, Place, Close;
  }

  /** An exception can strike wherever the code runs under the job's `try`: everywhere but before its
      first transaction, after its last, and in the two that record a failure. */
  lemma ThrowsUnderTry(st: State, task: nat)
    requires task in st.jobs
    ensures Enabled(st, Throw(task)) <==>
      st.jobs[task].phase != Queued && st.jobs[task].phase != Orphan && st.jobs[task].phase != Failing
      && st.jobs[task].phase != Ended
    ensures Enabled(st, Throw(task)) ==>
      Apply(st, Throw(task)) == st.(jobs := st.jobs[task := st.jobs[task].(phase := Failing)])
  {
  }
}
