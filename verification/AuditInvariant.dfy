/** The audit log accounts for every task created and every task that succeeded. */
module AuditInvariant {
  import opened Wrappers
  import opened Rows
  import opened Repositories
  import opened Sums
  import opened Agent
  import opened NodeAgentClient
  import opened Jobs
  import opened Protocol
  import opened JobInvariant
  import opened CoreInvariant
  import opened ContainerSteps

  function CountOf(audit: seq<AuditRow>, action: Action): nat {
    if audit == [] then 0
    else CountOf(audit[..|audit| - 1], action) + (if audit[|audit| - 1].action == action then 1 else 0)
  }

  function OfKind(tasks: map<nat, TaskRow>, kind: Kind): set<nat> {
    set t | t in tasks && tasks[t].kind == kind
  }

  function SucceededOf(tasks: map<nat, TaskRow>, kind: Kind): set<nat> {
    set t | t in tasks && tasks[t].kind == kind && tasks[t].status.Succeeded?
  }

  /** Provision tasks that succeeded, or whose placement is recorded and success is still to commit. */
  function PlacedTasks(tasks: map<nat, TaskRow>, jobs: map<nat, Job>): set<nat> {
    set t | t in tasks && tasks[t].kind.Provision? &&
            (tasks[t].status.Succeeded? || (t in jobs && jobs[t].phase.Closing?))
  }

  ghost predicate AuditOk(audit: seq<AuditRow>, tasks: map<nat, TaskRow>, jobs: map<nat, Job>) {
    && (forall kind: Kind :: CountOf(audit, Requested(kind)) == |OfKind(tasks, kind)|)
    && (forall kind: Kind :: !kind.Provision? ==> CountOf(audit, Completed(kind)) == |SucceededOf(tasks, kind)|)
    && CountOf(audit, Completed(Provision)) >= |PlacedTasks(tasks, jobs)|
  }

  /** One row with this action was added to the log. */
  predicate Logs(audit: seq<AuditRow>, after: seq<AuditRow>, action: Action) {
    |after| == |audit| + 1 && after[..|audit|] == audit && after[|audit|].action == action
  }

  lemma CountLogs(audit: seq<AuditRow>, after: seq<AuditRow>, logged: Action, action: Action)
    requires Logs(audit, after, logged)
    ensures CountOf(after, action) == CountOf(audit, action) + (if logged == action then 1 else 0)
  {
    assert after[..|after| - 1] == audit;
  }

  // ----- what a transaction does to the log and to its task

  /** A task succeeds exactly in the closing transaction, which also writes the completion row,
      but for a provision: its row is written with the placement. */
  ghost predicate AuditMove(db: Db, task: nat, job: Job, tx: Tx) {
    && (task in db.tasks ==>
          task in tx.db.tasks && tx.db.tasks[task].kind == db.tasks[task].kind
          && (tx.db.tasks[task].status.Succeeded? <==> job.phase.Closing?))
    && match job.phase
       case Placing(_, _) =>
         || (tx.db.audit == db.audit && !tx.job.phase.Closing?)
         || Logs(db.audit, tx.db.audit, Completed(Provision))
       case Closing(_) =>
         if job.kind.Provision? then tx.db.audit == db.audit
         else Logs(db.audit, tx.db.audit, Completed(job.kind))
       case _ =>
         && (job.kind.Provision? ==> !tx.job.phase.Closing?)
         && (tx.db.audit == db.audit || Logs(db.audit, tx.db.audit, BackupFailed))
  }

  lemma TxAudit(st: State, task: nat, choice: Option<nat>, silent: bool)
    requires MayTransact(st, task) && Core(st)
    ensures AuditMove(st.db, task, st.jobs[task], NextTx(st.db, task, st.jobs[task], choice, silent))
  {
    hide SelectorMayReturn, EachJobOk, Histories, TasksHaveJobs, ServerKeys, BackupKeys, RestoreKeys, OriginKeys,
      HostsOk,
      AuditMove, Begin, Mourn, Fail, Close, Place, ProvisionSelect, ReadNode;
    var job := st.jobs[task];
    JobOf(st, task);
    match job.phase
    case Queued =>
      assert task in st.db.tasks && st.db.tasks[task].server.Some? ==> st.db.tasks[task].server.value in st.db.servers;
      BeginAudit(st.db, task, job);
    case Marked => SelectAudit(st.db, task, job, choice);
    case Lookup(_) => LookupAudit(st.db, task, job);
    case Orphan => MournAudit(st.db, task, job);
    case Placing(_, _) => PlaceAudit(st.db, task, job, silent);
    case Closing(_) => CloseAudit(st.db, task, job);
    case Failing => FailAudit(st.db, task, job);
  }

  lemma BeginAudit(db: Db, task: nat, job: Job)
    requires JobOk(job, Find(db.tasks, task)) && job.phase.Queued?
    requires task in db.tasks && db.tasks[task].server.Some? ==> db.tasks[task].server.value in db.servers
    ensures AuditMove(db, task, job, Begin(db, task, job))
  {
    match job.kind
    case Provision =>
    case Delete =>
    case Backup => BackupBeginAudit(db, task, job);
    case Restore => RestoreBeginAudit(db, task, job);
    case _ =>
  }

  lemma BackupBeginAudit(db: Db, task: nat, job: Job)
    requires JobOk(job, Find(db.tasks, task)) && job.phase.Queued? && job.kind.Backup?
    ensures AuditMove(db, task, job, Begin(db, task, job))
  {
  }

  lemma RestoreBeginAudit(db: Db, task: nat, job: Job)
    requires JobOk(job, Find(db.tasks, task)) && job.phase.Queued? && job.kind.Restore?
    ensures AuditMove(db, task, job, Begin(db, task, job))
  {
  }

  lemma SelectAudit(db: Db, task: nat, job: Job, choice: Option<nat>)
    requires JobOk(job, Find(db.tasks, task)) && job.phase.Marked?
    ensures AuditMove(db, task, job, ProvisionSelect(db, task, job, choice))
  {
  }

  lemma LookupAudit(db: Db, task: nat, job: Job)
    requires JobOk(job, Find(db.tasks, task)) && job.phase.Lookup?
    ensures AuditMove(db, task, job, Tx(db, ReadNode(db, job)))
  {
  }

  lemma MournAudit(db: Db, task: nat, job: Job)
    requires JobOk(job, Find(db.tasks, task)) && job.phase.Orphan?
    ensures AuditMove(db, task, job, Mourn(db, task, job))
  {
  }

  lemma PlaceAudit(db: Db, task: nat, job: Job, silent: bool)
    requires JobOk(job, Find(db.tasks, task)) && job.phase.Placing?
    ensures AuditMove(db, task, job, Place(db, job, silent))
  {
  }

  lemma CloseAudit(db: Db, task: nat, job: Job)
    requires JobOk(job, Find(db.tasks, task)) && job.phase.Closing?
    ensures AuditMove(db, task, job, Close(db, task, job))
  {
    match job.kind
    case Provision =>
    case Delete => CloseDeleteAudit(db, task, job);
    case Backup => CloseBackupAudit(db, task, job);
    case Restore =>
    case _ => CloseLifecycleAudit(db, task, job);
  }

  lemma CloseDeleteAudit(db: Db, task: nat, job: Job)
    requires JobOk(job, Find(db.tasks, task)) && job.phase.Closing? && job.kind.Delete?
    ensures AuditMove(db, task, job, Close(db, task, job))
  {
  }

  lemma CloseBackupAudit(db: Db, task: nat, job: Job)
    requires JobOk(job, Find(db.tasks, task)) && job.phase.Closing? && job.kind.Backup?
    ensures AuditMove(db, task, job, Close(db, task, job))
  {
  }

  lemma CloseLifecycleAudit(db: Db, task: nat, job: Job)
    requires JobOk(job, Find(db.tasks, task)) && job.phase.Closing? && IsLifecycle(job.kind)
    ensures AuditMove(db, task, job, Close(db, task, job))
  {
  }

  lemma FailAudit(db: Db, task: nat, job: Job)
    requires JobOk(job, Find(db.tasks, task)) && job.phase.Failing?
    ensures AuditMove(db, task, job, Fail(db, task, job))
  {
  }

  // ----- the counts

  lemma SameOfKind(tasks: map<nat, TaskRow>, after: map<nat, TaskRow>, kind: Kind)
    requires after.Keys == tasks.Keys && forall t :: t in tasks ==> after[t].kind == tasks[t].kind
    ensures OfKind(after, kind) == OfKind(tasks, kind)
  {
  }

  ghost predicate OthersSame(tasks: map<nat, TaskRow>, after: map<nat, TaskRow>, task: nat) {
    && after.Keys == tasks.Keys
    && forall t :: t in tasks ==>
         after[t].kind == tasks[t].kind && (t != task ==> after[t].status == tasks[t].status)
  }

  lemma SucceededAfter(tasks: map<nat, TaskRow>, after: map<nat, TaskRow>, task: nat, kind: Kind)
    requires OthersSame(tasks, after, task) && task in tasks && !tasks[task].status.Succeeded?
    ensures |SucceededOf(after, kind)| == |SucceededOf(tasks, kind)|
      + (if after[task].status.Succeeded? && tasks[task].kind == kind then 1 else 0)
  {
    hide SucceededOf;
    SucceededSets(tasks, after, task, kind);
  }

  lemma SucceededSets(tasks: map<nat, TaskRow>, after: map<nat, TaskRow>, task: nat, kind: Kind)
    requires OthersSame(tasks, after, task) && task in tasks && !tasks[task].status.Succeeded?
    ensures task !in SucceededOf(tasks, kind)
    ensures SucceededOf(after, kind) == if after[task].status.Succeeded? && tasks[task].kind == kind
      then SucceededOf(tasks, kind) + {task} else SucceededOf(tasks, kind)
  {
  }

  lemma PlacedAfter(tasks: map<nat, TaskRow>, jobs: map<nat, Job>, after: map<nat, TaskRow>, task: nat, job: Job)
    requires OthersSame(tasks, after, task)
    ensures var grown := PlacedTasks(after, jobs[task := job]);
      && grown <= PlacedTasks(tasks, jobs) + {task}
      && |grown| <= |PlacedTasks(tasks, jobs)| + 1
      && (task !in grown || task in PlacedTasks(tasks, jobs) ==> |grown| <= |PlacedTasks(tasks, jobs)|)
  {
    var before := PlacedTasks(tasks, jobs);
    var grown := PlacedTasks(after, jobs[task := job]);
    assert grown <= before + {task};
    if task in before || task !in grown {
      assert grown <= before;
      SubsetSize(grown, before);
    } else {
      SubsetSize(grown, before + {task});
    }
  }

  lemma SameSucceeded(tasks: map<nat, TaskRow>, after: map<nat, TaskRow>, task: nat, kind: Kind)
    requires OthersSame(tasks, after, task) && task !in tasks
    ensures SucceededOf(after, kind) == SucceededOf(tasks, kind)
  {
  }

  lemma TxOthers(db: Db, task: nat, job: Job, tx: Tx)
    requires TxOk(db, task, job, tx)
    requires task in db.tasks ==> task in tx.db.tasks && tx.db.tasks[task].kind == db.tasks[task].kind
    ensures OthersSame(db.tasks, tx.db.tasks, task)
  {
    hide JobOk;
  }

  lemma TransactKeepsCompletions(st: State, task: nat, choice: Option<nat>, silent: bool, kind: Kind)
    requires MayTransact(st, task) && Core(st) && AuditOk(st.db.audit, st.db.tasks, st.jobs)
    requires !kind.Provision?
    ensures var tx := NextTx(st.db, task, st.jobs[task], choice, silent);
      CountOf(tx.db.audit, Completed(kind)) == |SucceededOf(tx.db.tasks, kind)|
  {
    hide NextTx, SelectorMayReturn, EachJobOk, Histories, RowsOk, HostsOk, PhaseOk, LocalsOk, SucceededOf, OfKind,
      PlacedTasks, CountOf, OthersSame, Leaves, EndedOk;
    var job := st.jobs[task];
    var tx := NextTx(st.db, task, job, choice, silent);
    JobOf(st, task);
    TxKeepsJob(st.db, st.jobs, st.made, st.ordered, task, choice, silent);
    TxAudit(st, task, choice, silent);
    TxOthers(st.db, task, job, tx);
    if task in st.db.tasks {
      NotSucceeded(job, st.db.tasks[task]);
      SucceededAfter(st.db.tasks, tx.db.tasks, task, kind);
    } else {
      SameSucceeded(st.db.tasks, tx.db.tasks, task, kind);
      ClosingHasRow(job);
    }
    if tx.db.audit != st.db.audit {
      var logged := tx.db.audit[|st.db.audit|].action;
      CountLogs(st.db.audit, tx.db.audit, logged, Completed(kind));
    }
  }

  lemma NotSucceeded(job: Job, row: TaskRow)
    requires JobOk(job, Some(row)) && !job.phase.Ended?
    ensures !row.status.Succeeded? && row.kind == job.kind
  {
  }

  lemma ClosingHasRow(job: Job)
    requires JobOk(job, None)
    ensures !job.phase.Closing? && !job.phase.Placing?
  {
  }

  lemma TransactKeepsPlaced(st: State, task: nat, choice: Option<nat>, silent: bool)
    requires MayTransact(st, task) && Core(st) && AuditOk(st.db.audit, st.db.tasks, st.jobs)
    ensures var tx := NextTx(st.db, task, st.jobs[task], choice, silent);
      CountOf(tx.db.audit, Completed(Provision)) >= |PlacedTasks(tx.db.tasks, st.jobs[task := tx.job])|
  {
    hide NextTx, SelectorMayReturn, EachJobOk, Histories, RowsOk, HostsOk, PhaseOk, LocalsOk, SucceededOf, OfKind,
      CountOf, Leaves, EndedOk;
    var job := st.jobs[task];
    var tx := NextTx(st.db, task, job, choice, silent);
    JobOf(st, task);
    TxKeepsJob(st.db, st.jobs, st.made, st.ordered, task, choice, silent);
    TxAudit(st, task, choice, silent);
    TxOthers(st.db, task, job, tx);
    PlacedAfter(st.db.tasks, st.jobs, tx.db.tasks, task, tx.job);
    if task in st.db.tasks {
      NotSucceeded(job, st.db.tasks[task]);
    } else {
      assert task !in tx.db.tasks;
    }
    if tx.db.audit != st.db.audit {
      var logged := tx.db.audit[|st.db.audit|].action;
      CountLogs(st.db.audit, tx.db.audit, logged, Completed(Provision));
    }
  }

  lemma TransactKeepsRequests(st: State, task: nat, choice: Option<nat>, silent: bool, kind: Kind)
    requires MayTransact(st, task) && Core(st) && AuditOk(st.db.audit, st.db.tasks, st.jobs)
    ensures var tx := NextTx(st.db, task, st.jobs[task], choice, silent);
      CountOf(tx.db.audit, Requested(kind)) == |OfKind(tx.db.tasks, kind)|
  {
    hide NextTx, SelectorMayReturn, EachJobOk, Histories, RowsOk, HostsOk, JobOk, SucceededOf, OfKind,
      PlacedTasks, CountOf, Leaves;
    var job := st.jobs[task];
    var tx := NextTx(st.db, task, job, choice, silent);
    TxKeepsJob(st.db, st.jobs, st.made, st.ordered, task, choice, silent);
    TxAudit(st, task, choice, silent);
    TxOthers(st.db, task, job, tx);
    SameOfKind(st.db.tasks, tx.db.tasks, kind);
    if tx.db.audit != st.db.audit {
      var logged := tx.db.audit[|st.db.audit|].action;
      CountLogs(st.db.audit, tx.db.audit, logged, Requested(kind));
    }
  }

  lemma TransactKeepsAudit(st: State, task: nat, choice: Option<nat>, silent: bool)
    requires MayTransact(st, task) && Core(st) && AuditOk(st.db.audit, st.db.tasks, st.jobs)
    ensures var after := Run(st, task, NextTx(st.db, task, st.jobs[task], choice, silent));
      AuditOk(after.db.audit, after.db.tasks, after.jobs)
  {
    hide NextTx, SelectorMayReturn, Core, SucceededOf, OfKind, PlacedTasks, CountOf;
    forall kind: Kind ensures var tx := NextTx(st.db, task, st.jobs[task], choice, silent);
        CountOf(tx.db.audit, Requested(kind)) == |OfKind(tx.db.tasks, kind)|
    {
      TransactKeepsRequests(st, task, choice, silent, kind);
    }
    forall kind: Kind | !kind.Provision? ensures var tx := NextTx(st.db, task, st.jobs[task], choice, silent);
        CountOf(tx.db.audit, Completed(kind)) == |SucceededOf(tx.db.tasks, kind)|
    {
      TransactKeepsCompletions(st, task, choice, silent, kind);
    }
    TransactKeepsPlaced(st, task, choice, silent);
  }

  /** A job that moves without a transaction can only drop out of the placed ones. */
  lemma JobKeepsAudit(st: State, task: nat, job: Job)
    requires Core(st) && AuditOk(st.db.audit, st.db.tasks, st.jobs) && task in st.jobs && SameJob(st.jobs[task], job)
    requires job.kind.Provision? ==> !job.phase.Closing?
    ensures AuditOk(st.db.audit, st.db.tasks, st.jobs[task := job])
  {
    hide EachJobOk, Histories, RowsOk, HostsOk, SucceededOf, OfKind, CountOf, PhaseOk, LocalsOk;
    JobOf(st, task);
    PlacedAfter(st.db.tasks, st.jobs, st.db.tasks, task, job);
  }

  lemma NewTaskCounts(tasks: map<nat, TaskRow>, jobs: map<nat, Job>, task: nat, row: TaskRow, kind: Kind)
    requires task !in tasks && row.status.Pending? && (task in jobs ==> !jobs[task].phase.Closing?)
    ensures |OfKind(tasks[task := row], kind)| == |OfKind(tasks, kind)| + (if row.kind == kind then 1 else 0)
    ensures SucceededOf(tasks[task := row], kind) == SucceededOf(tasks, kind)
    ensures PlacedTasks(tasks[task := row], jobs) == PlacedTasks(tasks, jobs)
  {
    var after := tasks[task := row];
    if row.kind == kind {
      assert OfKind(after, kind) == OfKind(tasks, kind) + {task};
    } else {
      assert OfKind(after, kind) == OfKind(tasks, kind);
    }
  }

  lemma CommitKeepsAudit(st: State, task: nat, owner: nat, resources: Resources)
    requires Core(st) && Enabled(st, Commit(task, owner, resources)) && AuditOk(st.db.audit, st.db.tasks, st.jobs)
    ensures var after := Apply(st, Commit(task, owner, resources)); AuditOk(after.db.audit, after.db.tasks, after.jobs)
  {
    hide EachJobOk, Histories, RowsOk, HostsOk, Committed, CountOf, TasksHaveJobs, OfKind, SucceededOf, PlacedTasks,
      JobOk,
      MayCommit;
    var job := st.jobs[task];
    var after := Committed(st.db, task, job, owner, resources);
    CommittedTask(st.db, task, job, owner, resources);
    CommittedRow(st.db, task, job, owner, resources);
    JobOf(st, task);
    ClosingHasRow(job);
    forall kind: Kind ensures CountOf(after.audit, Requested(kind)) == |OfKind(after.tasks, kind)|
      && (!kind.Provision? ==> CountOf(after.audit, Completed(kind)) == |SucceededOf(after.tasks, kind)|)
    {
      CountLogs(st.db.audit, after.audit, Requested(job.kind), Requested(kind));
      CountLogs(st.db.audit, after.audit, Requested(job.kind), Completed(kind));
      NewTaskCounts(st.db.tasks, st.jobs, task, RowFor(job), kind);
    }
    CountLogs(st.db.audit, after.audit, Requested(job.kind), Completed(Provision));
    NewTaskCounts(st.db.tasks, st.jobs, task, RowFor(job), Provision);
  }

  lemma CommittedRow(db: Db, task: nat, job: Job, owner: nat, resources: Resources)
    ensures Logs(db.audit, Committed(db, task, job, owner, resources).audit, Requested(job.kind))
  {
    match job.kind
    case Provision =>
    case Delete =>
    case Backup =>
    case Restore =>
    case _ =>
  }

  lemma StepKeepsAudit(st: State, step: Step)
    requires Core(st) && Enabled(st, step) && AuditOk(st.db.audit, st.db.tasks, st.jobs)
    ensures var after := Apply(st, step); AuditOk(after.db.audit, after.db.tasks, after.jobs)
  {
    hide Core, AuditOk, Deliver, NextTx, Committed, SelectorMayReturn;
    match step
    case Enqueue(task, kind, origin) => EnqueueKeepsAudit(st, task, kind, origin);
    case Commit(task, owner, resources) => CommitKeepsAudit(st, task, owner, resources);
    case Transact(task, choice, silent) => TransactKeepsAudit(st, task, choice, silent);
    case Attempt(task, net, id, size) => AttemptKeepsAudit(st, task, net, id, size);
    case Throw(task) => JobKeepsAudit(st, task, st.jobs[task].(phase := Failing));
    case _ =>
  }

  lemma EnqueueKeepsAudit(st: State, task: nat, kind: Kind, origin: Origin)
    requires Core(st) && Enabled(st, Enqueue(task, kind, origin)) && AuditOk(st.db.audit, st.db.tasks, st.jobs)
    ensures AuditOk(st.db.audit, st.db.tasks, Enqueued(st, task, kind, origin).jobs)
  {
    hide EachJobOk, Histories, RowsOk, HostsOk, SucceededOf, OfKind, CountOf;
    assert PlacedTasks(st.db.tasks, Enqueued(st, task, kind, origin).jobs) == PlacedTasks(st.db.tasks, st.jobs);
  }

  lemma AttemptKeepsAudit(st: State, task: nat, net: Net, id: nat, size: nat)
    requires MayAttempt(st, task, net, id) && Core(st) && AuditOk(st.db.audit, st.db.tasks, st.jobs)
    ensures var after := Deliver(st, task, net, id, size); AuditOk(after.db.audit, after.db.tasks, after.jobs)
  {
    hide EachJobOk, Histories, RowsOk, HostsOk, AuditOk, Serve, Seen, TasksHaveJobs, LocalsOk, RowOk;
    var job := st.jobs[task];
    var outcome := Seen(net, Serve(st.cloud, job.phase.endpoint, job.phase.request, id, size, false).1);
    JobOf(st, task);
    ProvisionNotClosing(job, outcome);
    JobKeepsAudit(st, task, React(job, outcome));
  }

  lemma ProvisionNotClosing(job: Job, outcome: Outcome)
    requires job.phase.Calling? && PhaseOk(job)
    ensures SameJob(job, React(job, outcome))
    ensures job.kind.Provision? ==> !React(job, outcome).phase.Closing?
  {
  }
}
