/** The transactions of the worker's jobs, as the statements they run on the session. Each leaves
    the tables and the job's locals exactly as its specification function says. */
module JobTransactions {
  import opened Wrappers
  import opened Rows
  import opened Agent
  import opened Jobs
  import opened Store

  // ----- provision

  method ProvisionMark(db: Tables, task: nat, job: Job) returns (after: Job)
    requires job.kind.Provision?
    modifies db
    ensures Tx(db.View(), after) == Begin(old(db.View()), task, job)
  {
    after := job.(early := task !in db.tasks);
    db.MarkRunning(task);
    after := after.(phase := Marked);
  }

  /** Raising before the commit rolls the status change back, so it is made last here. */
  method ProvisionChoose(db: Tables, task: nat, job: Job, choice: Option<nat>) returns (after: Job)
    modifies db
    ensures Tx(db.View(), after) == ProvisionSelect(old(db.View()), task, job, choice)
  {
    after := job.(phase := Failing);
    if task in db.tasks && db.tasks[task].server.Some? {
      var server := db.tasks[task].server.value;
      after := after.(server := Some(server));
      if server in db.servers && choice.Some? && choice.value in db.nodes {
        var srv := db.servers[server];
        var node := db.nodes[choice.value];
        db.SetStatus(Some(server), ServerStatus.Provisioning);
        after := after.(ask := srv.resources, agent := Some(Route(choice.value, node.endpoint)),
                        phase := Calling(choice.value, node.endpoint, CreateContainer(server), 0));
      }
    }
  }

  /** A flush that matches no row, or a node the foreign key does not find, raises. */
  method ProvisionRecord(db: Tables, job: Job, silent: bool) returns (after: Job)
    requires job.phase.Placing?
    modifies db
    ensures Tx(db.View(), after) == Place(old(db.View()), job, silent)
  {
    var Placing(node, container) := job.phase;
    var found := job.server.Some? && job.server.value in db.servers;
    after := job.(phase := Failing);
    if found && node !in db.nodes {
    } else if found || silent {
      if job.server.Some? { db.SetProvisioned(job.server.value, node, container); }
      db.Record(Completed(Provision), job.server);
      after := after.(phase := Closing(0));
    }
  }

  // ----- the first transactions of the other jobs

  method LifecycleFirst(db: Tables, task: nat, job: Job) returns (after: Job)
    requires IsLifecycle(job.kind)
    modifies db
    ensures Tx(db.View(), after) == Begin(old(db.View()), task, job)
  {
    after := job.(early := task !in db.tasks, phase := Ended);
    db.MarkRunning(task);
    if task !in db.tasks || db.tasks[task].server.None? { return; }
    var server := db.tasks[task].server.value;
    after := after.(server := Some(server));
    if server !in db.servers || db.servers[server].container.None? || db.servers[server].node.None? {
      db.MarkFailed(task);
      return;
    }
    var srv := db.servers[server];
    after := after.(container := srv.container);
    if srv.node.value in db.nodes {
      var request := ActOn(srv.container.value, job.kind);
      var node := db.nodes[srv.node.value];
      after := after.(agent := Some(Route(srv.node.value, node.endpoint)),
                      phase := Calling(srv.node.value, node.endpoint, request, 0));
    } else {
      after := after.(phase := Orphan);
    }
  }

  method DeleteFirst(db: Tables, task: nat, job: Job) returns (after: Job)
    requires job.kind.Delete?
    modifies db
    ensures Tx(db.View(), after) == Begin(old(db.View()), task, job)
  {
    after := job.(early := task !in db.tasks, phase := Ended);
    db.MarkRunning(task);
    if task !in db.tasks || db.tasks[task].server.None? { return; }
    var server := db.tasks[task].server.value;
    after := after.(server := Some(server));
    if server !in db.servers {
      db.MarkSucceeded(task);
      return;
    }
    var srv := db.servers[server];
    after := after.(container := srv.container);
    if srv.container.Some? && srv.node.Some? {
      after := after.(phase := Lookup(srv.node.value));
    } else {
      after := after.(phase := Closing(0));
    }
  }

  method BackupFirst(db: Tables, task: nat, job: Job) returns (after: Job)
    requires job.kind.Backup?
    modifies db
    ensures Tx(db.View(), after) == Begin(old(db.View()), task, job)
  {
    after := job.(early := task !in db.tasks, phase := Ended);
    db.MarkRunning(task);
    if task !in db.tasks { return; }
    var t := db.tasks[task];
    after := after.(backup := t.backup, server := t.server);
    if t.server.None? || t.server.value !in db.servers || t.backup.None? || t.backup.value !in db.backups
       || db.servers[t.server.value].node.None? || db.servers[t.server.value].container.None? {
      db.MarkFailed(task);
      db.MarkBackupFailed(t.backup);
      return;
    }
    var srv := db.servers[t.server.value];
    var key := db.backups[t.backup.value].key;
    after := after.(container := srv.container);
    if srv.node.value in db.nodes {
      var request := RunBackup(srv.container.value, t.server.value, key);
      var node := db.nodes[srv.node.value];
      after := after.(agent := Some(Route(srv.node.value, node.endpoint)),
                      phase := Calling(srv.node.value, node.endpoint, request, 0));
    } else {
      after := after.(phase := Orphan);
    }
  }

  method RestoreFirst(db: Tables, task: nat, job: Job) returns (after: Job)
    requires job.kind.Restore?
    modifies db
    ensures Tx(db.View(), after) == Begin(old(db.View()), task, job)
  {
    after := job.(early := task !in db.tasks, phase := Ended);
    db.MarkRunning(task);
    if task !in db.tasks { return; }
    var t := db.tasks[task];
    after := after.(backup := t.backup, server := t.server);
    if t.server.None? || t.server.value !in db.servers || t.backup.None? || t.backup.value !in db.backups
       || db.servers[t.server.value].node.None? || db.servers[t.server.value].container.None? {
      db.MarkFailed(task);
      return;
    }
    var srv := db.servers[t.server.value];
    if !srv.status.Stopped? {
      db.MarkFailed(task);
      return;
    }
    var key := db.backups[t.backup.value].key;
    after := after.(container := srv.container);
    if srv.node.value in db.nodes {
      var request := RunRestore(srv.container.value, t.server.value, key);
      var node := db.nodes[srv.node.value];
      after := after.(agent := Some(Route(srv.node.value, node.endpoint)),
                      phase := Calling(srv.node.value, node.endpoint, request, 0));
    } else {
      after := after.(phase := Orphan);
    }
  }

  /** The second session of a delete job only reads. */
  method DeleteLookup(db: Tables, job: Job) returns (after: Job)
    requires job.phase.Lookup?
    ensures after == ReadNode(db.View(), job)
  {
    var node := job.phase.node;
    if node in db.nodes && job.container.Some? {
      var endpoint := db.nodes[node].endpoint;
      var request := RemoveContainer(job.container.value);
      after := job.(agent := Some(Route(node, endpoint)), phase := Calling(node, endpoint, request, 0));
    } else {
      after := job.(phase := Closing(0));
    }
  }

  // ----- the last transactions

  method Succeed(db: Tables, task: nat, job: Job) returns (after: Job)
    requires job.phase.Closing?
    modifies db
    ensures Tx(db.View(), after) == Close(old(db.View()), task, job)
  {
    match job.kind {
      case Provision =>
        db.MarkSucceeded(task);
      case Delete =>
        if job.server.Some? && job.server.value in db.servers { db.DeleteRow(job.server.value); }
        db.Record(Completed(Delete), job.server);
        db.MarkSucceeded(task);
      case Backup =>
        db.MarkAvailable(job.backup, job.phase.size);
        db.MarkSucceeded(task);
        db.Record(Completed(Backup), job.backup);
      case Restore =>
        db.MarkSucceeded(task);
        db.Record(Completed(Restore), job.backup);
      case _ =>
        db.SetStatus(job.server, if job.kind.Stop? then ServerStatus.Stopped else ServerStatus.Running);
        db.Record(Completed(job.kind), job.server);
        db.MarkSucceeded(task);
    }
    after := job.(phase := Ended);
  }

  method HandleFailure(db: Tables, task: nat, job: Job) returns (after: Job)
    modifies db
    ensures Tx(db.View(), after) == Fail(old(db.View()), task, job)
  {
    match job.kind {
      case Provision =>
        if job.server.Some? { db.SetStatus(job.server, ServerStatus.Failed); }
        db.MarkFailed(task);
      case Backup =>
        db.MarkBackupFailed(job.backup);
        db.MarkFailed(task);
        db.Record(BackupFailed, job.backup);
      case _ =>
        db.MarkFailed(task);
    }
    after := job.(phase := Ended);
  }

  method RecordMissingNode(db: Tables, task: nat, job: Job) returns (after: Job)
    modifies db
    ensures Tx(db.View(), after) == Mourn(old(db.View()), task, job)
  {
    db.MarkFailed(task);
    if job.kind.Backup? { db.MarkBackupFailed(job.backup); }
    after := job.(phase := Ended);
  }
}
