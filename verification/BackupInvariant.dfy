/** Backup rows, their tasks and the published objects move together. */
module BackupInvariant {
  import opened Wrappers
  import opened Rows
  import opened Repositories
  import opened Agent
  import opened NodeAgentClient
  import opened Jobs
  import opened Protocol
  import opened JobInvariant
  import opened CoreInvariant
  import opened ContainerInvariant
  import opened ContainerSteps

  predicate InStep(backup: BackupStatus, task: TaskStatus) {
    && (backup.Creating? <==> task.Pending? || task.Running?)
    && (backup.Available? <==> task.Succeeded?)
    && (backup.Failed? <==> task.Failed?)
  }

  ghost predicate Lockstep(backups: map<nat, BackupRow>, tasks: map<nat, TaskRow>, ordered: map<nat, nat>) {
    forall b :: b in backups ==>
      b in ordered && ordered[b] in tasks && InStep(backups[b].status, tasks[ordered[b]].status)
  }

  /** An object was taken from the volume its key names. */
  ghost predicate ObjectsOk(objects: map<Key, Object>) {
    forall k :: k in objects ==> objects[k].volume == k.server
  }

  /** The object was taken from this volume and, unless a late request wrote it, has this size. */
  predicate Holding(objects: map<Key, Object>, key: Key, volume: nat, size: nat) {
    && key in objects && objects[key].volume == volume
    && (!objects[key].late ==> objects[key].size == size)
  }

  /** An available backup has its object, taken from its own server's volume, of the recorded size. */
  ghost predicate AvailableOk(backups: map<nat, BackupRow>, objects: map<Key, Object>) {
    forall b :: b in backups && backups[b].status.Available? ==>
      Holding(objects, backups[b].key, backups[b].server, backups[b].size)
  }

  function KeyOf(job: Job): Key {
    Key(job.origin.server, job.origin.backup)
  }

  ghost predicate ClosingOk(jobs: map<nat, Job>, objects: map<Key, Object>) {
    forall t :: t in jobs && jobs[t].kind.Backup? && jobs[t].phase.Closing? ==>
      Holding(objects, KeyOf(jobs[t]), jobs[t].origin.server, jobs[t].phase.size)
  }

  /** A requested restore names a published object, and an available backup while the row exists. */
  ghost predicate RestoresOk(tasks: map<nat, TaskRow>, jobs: map<nat, Job>, backups: map<nat, BackupRow>,
                             objects: map<Key, Object>)
  {
    forall t :: t in tasks && t in jobs && jobs[t].kind.Restore? ==>
      && KeyOf(jobs[t]) in objects
      && (jobs[t].origin.backup in backups ==> backups[jobs[t].origin.backup].status.Available?)
  }

  ghost predicate Backups(st: State) {
    && Lockstep(st.db.backups, st.db.tasks, st.ordered)
    && ObjectsOk(st.cloud.objects)
    && AvailableOk(st.db.backups, st.cloud.objects)
    && ClosingOk(st.jobs, st.cloud.objects)
    && RestoresOk(st.db.tasks, st.jobs, st.db.backups, st.cloud.objects)
  }

  // ----- what a transaction does to the backup table

  /** Only a backup job writes a backup row, its own; a deletion takes the rows of its server. */
  ghost predicate BackupsMove(db: Db, job: Job, after: Db) {
    && (forall b :: b in after.backups ==> b in db.backups)
    && (forall b :: b in after.backups && !(job.kind.Backup? && job.backup == Some(b)) ==>
          after.backups[b] == db.backups[b])
  }

  lemma TxBackups(db: Db, task: nat, job: Job, choice: Option<nat>, silent: bool)
    requires !job.phase.Calling? && !job.phase.Ended?
    ensures var tx := NextTx(db, task, job, choice, silent); BackupsMove(db, tx.job, tx.db)
  {
    hide Begin, Close, Fail, Mourn;
    match job.phase
    case Queued => BeginBackups(db, task, job);
    case Orphan => MournBackups(db, task, job);
    case Closing(_) => CloseBackups(db, task, job);
    case Failing => FailBackups(db, task, job);
    case _ =>
  }

  lemma MournBackups(db: Db, task: nat, job: Job)
    ensures var tx := Mourn(db, task, job); BackupsMove(db, tx.job, tx.db)
  {
  }

  lemma FailBackups(db: Db, task: nat, job: Job)
    ensures var tx := Fail(db, task, job); BackupsMove(db, tx.job, tx.db)
  {
  }

  lemma BeginBackups(db: Db, task: nat, job: Job)
    ensures var tx := Begin(db, task, job); BackupsMove(db, tx.job, tx.db)
  {
    match job.kind
    case Provision =>
    case Delete =>
    case Backup =>
    case Restore =>
    case _ =>
  }

  lemma CloseBackups(db: Db, task: nat, job: Job)
    requires job.phase.Closing?
    ensures var tx := Close(db, task, job); BackupsMove(db, tx.job, tx.db)
  {
  }

  /** A backup job and its row: both undecided, or decided alike, and available only by a
      success transaction, which records the size the agent answered. */
  lemma OwnBackup(db: Db, task: nat, job: Job, choice: Option<nat>, silent: bool)
    requires job.kind.Backup? && JobOk(job, Find(db.tasks, task)) && !job.phase.Calling? && !job.phase.Ended?
    requires task in db.tasks && job.origin.backup in db.backups
    requires InStep(db.backups[job.origin.backup].status, db.tasks[task].status)
    ensures var tx := NextTx(db, task, job, choice, silent);
      && job.origin.backup in tx.db.backups && task in tx.db.tasks
      && InStep(tx.db.backups[job.origin.backup].status, tx.db.tasks[task].status)
      && (tx.db.backups[job.origin.backup].status.Available? ==>
            job.phase.Closing? && tx.db.backups[job.origin.backup].size == job.phase.size)
      && tx.db.backups[job.origin.backup].server == db.backups[job.origin.backup].server
      && tx.db.backups[job.origin.backup].key == db.backups[job.origin.backup].key
  {
    match job.phase
    case Queued => OwnBegin(db, task, job);
    case _ =>
  }

  lemma OwnBegin(db: Db, task: nat, job: Job)
    requires job.kind.Backup? && JobOk(job, Find(db.tasks, task)) && job.phase.Queued?
    requires task in db.tasks && job.origin.backup in db.backups
    requires InStep(db.backups[job.origin.backup].status, db.tasks[task].status)
    ensures var tx := Begin(db, task, job);
      && job.origin.backup in tx.db.backups && task in tx.db.tasks
      && InStep(tx.db.backups[job.origin.backup].status, tx.db.tasks[task].status)
      && !tx.db.backups[job.origin.backup].status.Available?
      && tx.db.backups[job.origin.backup].server == db.backups[job.origin.backup].server
      && tx.db.backups[job.origin.backup].key == db.backups[job.origin.backup].key
  {
  }

  lemma TxKeepsLockstep(st: State, task: nat, choice: Option<nat>, silent: bool)
    requires MayTransact(st, task) && Core(st) && Backups(st)
    ensures var tx := NextTx(st.db, task, st.jobs[task], choice, silent);
      Lockstep(tx.db.backups, tx.db.tasks, st.ordered)
  {
    hide NextTx, SelectorMayReturn, EachJobOk, TasksHaveJobs, ObjectsOk, AvailableOk, ClosingOk, RestoresOk, InStep,
      ServerKeys, TaskKeys, RestoreKeys, OriginKeys, JobOk, HostsOk;
    var job := st.jobs[task];
    var tx := NextTx(st.db, task, job, choice, silent);
    TxKeepsJob(st.db, st.jobs, st.made, st.ordered, task, choice, silent);
    TxBackups(st.db, task, job, choice, silent);
    JobOf(st, task);
    TxLocal(st, task, choice, silent);
    forall b | b in tx.db.backups
      ensures b in st.ordered && st.ordered[b] in tx.db.tasks
      ensures InStep(tx.db.backups[b].status, tx.db.tasks[st.ordered[b]].status)
    {
      if st.ordered[b] == task {
        OwnBackup(st.db, task, job, choice, silent);
      }
    }
  }

  /** The local `backup_id` of a backup job names the backup its task was ordered for. */
  lemma TxLocal(st: State, task: nat, choice: Option<nat>, silent: bool)
    requires MayTransact(st, task) && Core(st)
    ensures var job := NextTx(st.db, task, st.jobs[task], choice, silent).job;
      job.backup.Some? ==> job.backup.value == st.jobs[task].origin.backup
  {
    hide SelectorMayReturn, NextTx, PhaseOk, RowOk, RowsOk, EachJobOk, Leaves, TasksHaveJobs, Histories;
    TxKeepsJob(st.db, st.jobs, st.made, st.ordered, task, choice, silent);
  }

  lemma TxKeepsAvailable(st: State, task: nat, choice: Option<nat>, silent: bool)
    requires MayTransact(st, task) && Core(st) && Backups(st)
    ensures AvailableOk(NextTx(st.db, task, st.jobs[task], choice, silent).db.backups, st.cloud.objects)
  {
    hide NextTx, SelectorMayReturn, EachJobOk, TasksHaveJobs, RestoresOk, InStep,
      ServerKeys, TaskKeys, RestoreKeys, OriginKeys, JobOk, HostsOk;
    var job := st.jobs[task];
    var tx := NextTx(st.db, task, job, choice, silent);
    TxKeepsJob(st.db, st.jobs, st.made, st.ordered, task, choice, silent);
    TxBackups(st.db, task, job, choice, silent);
    JobOf(st, task);
    TxLocal(st, task, choice, silent);
    forall b | b in tx.db.backups && tx.db.backups[b].status.Available?
      ensures Holding(st.cloud.objects, tx.db.backups[b].key, tx.db.backups[b].server, tx.db.backups[b].size)
    {
      if st.ordered[b] == task {
        OwnBackup(st.db, task, job, choice, silent);
        assert st.db.backups[b].key == KeyOf(job);
      }
    }
  }

  lemma NoClosingBackup(db: Db, task: nat, job: Job, choice: Option<nat>, silent: bool)
    requires job.kind.Backup? && JobOk(job, Find(db.tasks, task)) && !job.phase.Calling? && !job.phase.Ended?
    ensures !NextTx(db, task, job, choice, silent).job.phase.Closing?
  {
  }

  lemma TxKeepsClosing(st: State, task: nat, choice: Option<nat>, silent: bool)
    requires MayTransact(st, task) && Core(st) && Backups(st)
    ensures ClosingOk(st.jobs[task := NextTx(st.db, task, st.jobs[task], choice, silent).job], st.cloud.objects)
  {
    hide NextTx, SelectorMayReturn, EachJobOk, RestoresOk, Lockstep, AvailableOk, RowsOk, JobOk, Histories,
      TasksHaveJobs, Leaves;
    JobOf(st, task);
    TxKeepsJob(st.db, st.jobs, st.made, st.ordered, task, choice, silent);
    if st.jobs[task].kind.Backup? {
      NoClosingBackup(st.db, task, st.jobs[task], choice, silent);
    }
  }

  /** An available backup has a finished job, so no transaction touches it again. */
  lemma AvailableIsDone(st: State, backup: nat)
    requires Core(st) && Backups(st) && backup in st.db.backups && st.db.backups[backup].status.Available?
    ensures backup in st.ordered && st.ordered[backup] in st.jobs && st.jobs[st.ordered[backup]].phase.Ended?
  {
    hide ObjectsOk, AvailableOk, ClosingOk, RestoresOk, ServerKeys, TaskKeys, RestoreKeys, OriginKeys, HostsOk;
    JobOf(st, st.ordered[backup]);
  }

  lemma TxKeepsRestores(st: State, task: nat, choice: Option<nat>, silent: bool)
    requires MayTransact(st, task) && Core(st) && Backups(st)
    ensures var tx := NextTx(st.db, task, st.jobs[task], choice, silent);
      RestoresOk(tx.db.tasks, st.jobs[task := tx.job], tx.db.backups, st.cloud.objects)
  {
    hide NextTx, SelectorMayReturn, EachJobOk, ObjectsOk, Lockstep, AvailableOk, ClosingOk, RowsOk, JobOk;
    var tx := NextTx(st.db, task, st.jobs[task], choice, silent);
    var jobs := st.jobs[task := tx.job];
    TxKeepsJob(st.db, st.jobs, st.made, st.ordered, task, choice, silent);
    TxBackups(st.db, task, st.jobs[task], choice, silent);
    TxLocal(st, task, choice, silent);
    forall t | t in tx.db.tasks && t in jobs && jobs[t].kind.Restore?
      ensures KeyOf(jobs[t]) in st.cloud.objects
      ensures jobs[t].origin.backup in tx.db.backups ==> tx.db.backups[jobs[t].origin.backup].status.Available?
    {
      var b := jobs[t].origin.backup;
      if b in tx.db.backups && tx.db.backups[b] != st.db.backups[b] {
        AvailableIsDone(st, b);
      }
    }
  }

  lemma TransactKeepsBackups(st: State, task: nat, choice: Option<nat>, silent: bool)
    requires MayTransact(st, task) && Core(st) && Backups(st)
    ensures Backups(Run(st, task, NextTx(st.db, task, st.jobs[task], choice, silent)))
  {
    hide NextTx, SelectorMayReturn, Core, Lockstep, AvailableOk, ClosingOk, RestoresOk;
    TxKeepsLockstep(st, task, choice, silent);
    TxKeepsAvailable(st, task, choice, silent);
    TxKeepsClosing(st, task, choice, silent);
    TxKeepsRestores(st, task, choice, silent);
  }

  // ----- an attempt at a request

  /** Only a backup job publishes, under its own key and from its own server's volume. */
  predicate Publishes(objects: map<Key, Object>, after: map<Key, Object>, job: Job, size: nat, late: bool) {
    || after == objects
    || (job.kind.Backup? && after == objects[KeyOf(job) := Object(job.origin.server, size, late)])
  }

  lemma ServePublishes(cloud: Cloud, job: Job, endpoint: nat, request: Request, id: nat, size: nat, late: bool)
    requires Asks(job, request)
    ensures Publishes(cloud.objects, Serve(cloud, endpoint, request, id, size, late).0.objects, job, size, late)
  {
    hide NameTaken, VolumeExists;
  }

  lemma AttemptObjects(st: State, task: nat, net: Net, id: nat, size: nat)
    requires MayAttempt(st, task, net, id) && Core(st)
    ensures Publishes(st.cloud.objects, CloudAfter(st.cloud, st.jobs[task], net, id, size).objects, st.jobs[task], size,
                      false)
  {
    hide RowsOk, EachJobOk, TasksHaveJobs, Histories, HostsOk, LocalsOk, RowOk, Serve, Asks;
    var job := st.jobs[task];
    JobOf(st, task);
    ServePublishes(st.cloud, job, job.phase.endpoint, job.phase.request, id, size, false);
  }

  lemma AttemptClosing(st: State, task: nat, net: Net, id: nat, size: nat)
    requires MayAttempt(st, task, net, id) && Core(st) && st.jobs[task].kind.Backup?
    ensures var job := JobAfter(st.cloud, st.jobs[task], net, id, size);
      var objects := CloudAfter(st.cloud, st.jobs[task], net, id, size).objects;
      job.phase.Closing? ==> Holding(objects, KeyOf(st.jobs[task]), st.jobs[task].origin.server, job.phase.size)
  {
    hide RowsOk, EachJobOk, TasksHaveJobs, Histories, HostsOk, LocalsOk, RowOk, NameTaken, VolumeExists;
    JobOf(st, task);
  }

  lemma AttemptKeepsBackups(st: State, task: nat, net: Net, id: nat, size: nat)
    requires MayAttempt(st, task, net, id) && Core(st) && Backups(st)
    ensures Backups(Deliver(st, task, net, id, size))
  {
    hide RowsOk, EachJobOk, TasksHaveJobs, Serve, React, Seen, Executed, Lockstep, AvailableOk, InStep, RestoresOk,
      Histories, Publishes, Holding;
    var job := st.jobs[task];
    var after := CloudAfter(st.cloud, job, net, id, size);
    var job' := JobAfter(st.cloud, job, net, id, size);
    var jobs := st.jobs[task := job'];
    assert Deliver(st, task, net, id, size).(strays := st.strays) == st.(cloud := after, jobs := jobs);
    SameLocals(job, Seen(net, Serve(st.cloud, job.phase.endpoint, job.phase.request, id, size, false).1));
    AttemptObjects(st, task, net, id, size);
    MoreObjects(st, task, after.objects, size, false);
    OtherClosings(st, task, after.objects, size, false);
    if job.kind.Backup? {
      AttemptClosing(st, task, net, id, size);
    }
    RestoresAfterJob(st.db.tasks, st.jobs, st.db.backups, after.objects, task, job');
  }

  /** A backup carried out late rewrites its own object only, and the flag says so. */
  lemma LateKeepsBackups(st: State, stray: Stray, id: nat, size: nat)
    requires Core(st) && Containers(st) && Backups(st) && Enabled(st, Late(stray, id, size))
    ensures Backups(Apply(st, Late(stray, id, size)))
  {
    hide Core, BornOk, HandlesOk, PlacementsOk, ReturnsOk, Lockstep, ObjectsOk, AvailableOk, RestoresOk, Serve,
      Publishes, Holding, Asks;
    assert StrayOk(stray, st.jobs);
    var job := st.jobs[stray.task];
    var objects := Serve(st.cloud, stray.endpoint, stray.request, id, size, true).0.objects;
    ServePublishes(st.cloud, job, stray.endpoint, stray.request, id, size, true);
    MoreObjects(st, stray.task, objects, size, true);
    OtherClosings(st, stray.task, objects, size, true);
    OwnClosing(st.cloud.objects, objects, job, size);
  }

  lemma OwnClosing(objects: map<Key, Object>, after: map<Key, Object>, job: Job, size: nat)
    requires Publishes(objects, after, job, size, true)
    ensures job.phase.Closing? && Holding(objects, KeyOf(job), job.origin.server, job.phase.size) ==>
      Holding(after, KeyOf(job), job.origin.server, job.phase.size)
  {
  }

  lemma RestoresAfterJob(tasks: map<nat, TaskRow>, jobs: map<nat, Job>, backups: map<nat, BackupRow>,
                         objects: map<Key, Object>, task: nat, job: Job)
    requires RestoresOk(tasks, jobs, backups, objects) && task in jobs && SameJob(jobs[task], job)
    ensures RestoresOk(tasks, jobs[task := job], backups, objects)
  {
  }

  lemma OtherClosings(st: State, task: nat, objects: map<Key, Object>, size: nat, late: bool)
    requires Core(st) && Backups(st) && task in st.jobs
    requires Publishes(st.cloud.objects, objects, st.jobs[task], size, late)
    ensures forall t :: t in st.jobs && t != task && st.jobs[t].kind.Backup? && st.jobs[t].phase.Closing? ==>
      Holding(objects, KeyOf(st.jobs[t]), st.jobs[t].origin.server, st.jobs[t].phase.size)
  {
    hide RowsOk, EachJobOk, TasksHaveJobs, HostsOk, Lockstep, AvailableOk, RestoresOk, ObjectsOk;
  }

  lemma MoreObjects(st: State, task: nat, objects: map<Key, Object>, size: nat, late: bool)
    requires Core(st) && Backups(st) && task in st.jobs && (late || st.jobs[task].phase.Calling?)
    requires Publishes(st.cloud.objects, objects, st.jobs[task], size, late)
    ensures ObjectsOk(objects) && AvailableOk(st.db.backups, objects)
    ensures RestoresOk(st.db.tasks, st.jobs, st.db.backups, objects)
  {
    hide EachJobOk, TasksHaveJobs, HostsOk, Lockstep, ClosingOk, ServerKeys, TaskKeys, RestoreKeys, OriginKeys,
      Histories;
    assert ObjectsOk(objects) by { hide AvailableOk, RestoresOk, BackupKeys; }
    forall b | b in st.db.backups && st.db.backups[b].status.Available?
      ensures Holding(objects, st.db.backups[b].key, st.db.backups[b].server, st.db.backups[b].size)
    {
      hide RestoresOk;
      if !late { NotItsKey(st, b, task); }
      KeyNamesServer(st, b);
    }
  }

  lemma KeyNamesServer(st: State, b: nat)
    requires Core(st) && b in st.db.backups
    ensures st.db.backups[b].key == Key(st.db.backups[b].server, b)
  {
    hide JobsOk, ServerKeys, TaskKeys, RestoreKeys, OriginKeys, HostsOk;
  }

  lemma NotItsKey(st: State, b: nat, task: nat)
    requires Core(st) && Backups(st) && b in st.db.backups && st.db.backups[b].status.Available?
    requires task in st.jobs && st.jobs[task].phase.Calling?
    ensures st.jobs[task].kind.Backup? ==> KeyOf(st.jobs[task]) != st.db.backups[b].key
  {
    AvailableIsDone(st, b);
    KeyNamesServer(st, b);
    hide EachJobOk, TasksHaveJobs, HostsOk, Backups, RowsOk;
  }

  lemma ThrowKeepsBackups(st: State, task: nat)
    requires Core(st) && Backups(st) && Enabled(st, Throw(task))
    ensures Backups(Run(st, task, Tx(st.db, st.jobs[task].(phase := Failing))))
  {
    hide Core, Lockstep, AvailableOk;
    RestoresAfterJob(st.db.tasks, st.jobs, st.db.backups, st.cloud.objects, task, st.jobs[task].(phase := Failing));
  }

  // ----- API requests

  lemma CommitKeepsBackups(st: State, task: nat, owner: nat, resources: Resources)
    requires Core(st) && Backups(st) && Enabled(st, Commit(task, owner, resources))
    ensures Backups(Apply(st, Commit(task, owner, resources)))
  {
    hide Committed, EachJobOk, Lockstep, AvailableOk, RestoresOk, ClosingOk, ObjectsOk, HostsOk;
    var job := st.jobs[task];
    var after := Committed(st.db, task, job, owner, resources);
    CommittedTask(st.db, task, job, owner, resources);
    CommittedBackups(st.db, task, job, owner, resources);
    if job.kind.Backup? {
      OrderKeepsLockstep(st.db.backups, st.db.tasks, st.jobs, st.ordered, task, after, st.cloud.objects);
      OrderKeepsRestores(st, task, after);
    } else {
      TaskKeepsLockstep(st.db.backups, st.db.tasks, st.ordered, task, after);
      CommitKeepsRestores(st, task, after);
    }
  }

  lemma CommittedBackups(db: Db, task: nat, job: Job, owner: nat, resources: Resources)
    ensures Committed(db, task, job, owner, resources).backups == if job.kind.Backup? then
      db.backups[job.origin.backup := BackupRow(job.origin.server, KeyOf(job), BackupStatus.Creating,
        0)] else db.backups
  {
  }

  lemma OrderKeepsLockstep(backups: map<nat, BackupRow>, tasks: map<nat, TaskRow>, jobs: map<nat, Job>,
                           ordered: map<nat, nat>, task: nat, after: Db, objects: map<Key, Object>)
    requires Lockstep(backups, tasks, ordered) && AvailableOk(backups, objects)
    requires task in jobs && task !in tasks && jobs[task].kind.Backup?
    requires jobs[task].origin.backup in ordered && ordered[jobs[task].origin.backup] == task
    requires after.tasks == tasks[task := RowFor(jobs[task])]
    requires after.backups == backups[jobs[task].origin.backup :=
      BackupRow(jobs[task].origin.server, KeyOf(jobs[task]), BackupStatus.Creating, 0)]
    ensures Lockstep(after.backups, after.tasks, ordered) && AvailableOk(after.backups, objects)
  {
  }

  lemma TaskKeepsLockstep(backups: map<nat, BackupRow>, tasks: map<nat, TaskRow>, ordered: map<nat, nat>,
                          task: nat, after: Db)
    requires Lockstep(backups, tasks, ordered) && task !in tasks
    requires after.tasks.Keys == tasks.Keys + {task} && after.backups == backups
    requires forall t :: t in tasks ==> after.tasks[t] == tasks[t]
    ensures Lockstep(after.backups, after.tasks, ordered)
  {
  }

  /** No restore can name a backup that is only now ordered. */
  lemma OrderKeepsRestores(st: State, task: nat, after: Db)
    requires Core(st) && Backups(st) && task in st.jobs && task !in st.db.tasks && st.jobs[task].kind.Backup?
    requires after.tasks == st.db.tasks[task := RowFor(st.jobs[task])]
    requires after.backups == st.db.backups[st.jobs[task].origin.backup :=
      BackupRow(st.jobs[task].origin.server, KeyOf(st.jobs[task]), BackupStatus.Creating, 0)]
    ensures RestoresOk(after.tasks, st.jobs, after.backups, st.cloud.objects)
  {
    hide EachJobOk, TasksHaveJobs, HostsOk, Lockstep, ClosingOk, AvailableOk, ServerKeys, TaskKeys, BackupKeys,
      OriginKeys;
  }

  lemma CommitKeepsRestores(st: State, task: nat, after: Db)
    requires Core(st) && Backups(st) && task in st.jobs && task !in st.db.tasks && MayCommit(st.db, st.jobs[task])
    requires after.tasks == st.db.tasks[task := RowFor(st.jobs[task])] && after.backups == st.db.backups
    ensures RestoresOk(after.tasks, st.jobs, after.backups, st.cloud.objects)
  {
    hide EachJobOk, TasksHaveJobs, HostsOk, Lockstep, ClosingOk, ServerKeys, TaskKeys, RestoreKeys, OriginKeys;
  }

  lemma EnqueueKeepsBackups(st: State, task: nat, kind: Kind, origin: Origin)
    requires Core(st) && Backups(st) && Enabled(st, Enqueue(task, kind, origin))
    ensures Backups(Enqueued(st, task, kind, origin))
  {
    hide EachJobOk, HostsOk, RowsOk, Histories, AvailableOk, ObjectsOk;
  }

  lemma StepKeepsBackups(st: State, step: Step)
    requires Core(st) && Containers(st) && Backups(st) && Enabled(st, step)
    ensures Backups(Apply(st, step))
  {
    hide Core, Containers, Lockstep, ObjectsOk, AvailableOk, ClosingOk, RestoresOk, Deliver, NextTx, Committed,
      SelectorMayReturn, Serve;
    match step
    case Enqueue(task, kind, origin) => EnqueueKeepsBackups(st, task, kind, origin);
    case Commit(task, owner, resources) => CommitKeepsBackups(st, task, owner, resources);
    case Transact(task, choice, silent) => TransactKeepsBackups(st, task, choice, silent);
    case Attempt(task, net, id, size) => AttemptKeepsBackups(st, task, net, id, size);
    case Throw(task) => ThrowKeepsBackups(st, task);
    case Late(stray, id, size) => LateKeepsBackups(st, stray, id, size);
    case _ =>
  }
}
