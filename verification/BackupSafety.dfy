/** Backups over whole runs: in step with their tasks, stable once available, restored from the
    volume they were taken from. */
module BackupSafety {
  import opened Wrappers
  import opened Rows
  import opened Repositories
  import opened Agent
  import opened NodeAgentClient
  import opened Jobs
  import opened Protocol
  import opened JobInvariant
  import opened CoreInvariant
  import opened ContainerInvariant
  import opened ContainerSteps
  import opened BackupInvariant
  import opened Capacity
  import opened Runs
  import JobStages
  import opened Witnesses

  /** A backup is creating, available or failed exactly as its task is open, succeeded or failed,
      whatever becomes of the server or the node; an available one has its object. */
  lemma BackupFollowsTask(st: State, backup: nat)
    requires Reachable(st) && backup in st.db.backups
    ensures backup in st.ordered && st.ordered[backup] in st.db.tasks
    ensures InStep(st.db.backups[backup].status, st.db.tasks[st.ordered[backup]].status)
    ensures st.db.tasks[st.ordered[backup]].kind.Backup? && st.db.tasks[st.ordered[backup]].backup == Some(backup)
    ensures var row := st.db.backups[backup];
      row.status.Available? ==> Holding(st.cloud.objects, row.key, row.server, row.size)
  {
    hide IsRun;
    ReachableInvariant(st);
    hide ServerKeys, TaskKeys, RestoreKeys, OriginKeys, HostsOk, ClosingOk, RestoresOk, ObjectsOk;
    JobOf(st, st.ordered[backup]);
  }

  /** The job of the backup is over and has published. */
  ghost predicate Published(st: State, backup: nat, key: Key) {
    && backup in st.ordered && st.ordered[backup] in st.jobs
    && st.jobs[st.ordered[backup]].phase.Ended? && KeyOf(st.jobs[st.ordered[backup]]) == key
    && key in st.cloud.objects
  }

  lemma AvailableIsPublished(st: State, backup: nat)
    requires Core(st) && Backups(st) && backup in st.db.backups && st.db.backups[backup].status.Available?
    ensures Published(st, backup, st.db.backups[backup].key)
  {
    AvailableIsDone(st, backup);
    hide ServerKeys, TaskKeys, RestoreKeys, OriginKeys, HostsOk, ClosingOk, RestoresOk, ObjectsOk, EachJobOk,
      TasksHaveJobs;
  }

  /** The object is the one it was, or a late request rewrote it from the same volume. */
  predicate SameUnlessLate(now: Object, before: Object) {
    now == before || (now.late && now.volume == before.volume)
  }

  lemma StepKeepsPublished(st: State, step: Step, backup: nat, key: Key)
    requires Core(st) && Containers(st) && Backups(st) && Enabled(st, step) && Published(st, backup, key)
    ensures Published(Apply(st, step), backup, key)
    ensures SameUnlessLate(Apply(st, step).cloud.objects[key], st.cloud.objects[key])
  {
    hide EachJobOk, TasksHaveJobs, RowsOk, HostsOk, Lockstep, AvailableOk, ClosingOk, RestoresOk, NextTx,
      Committed, SelectorMayReturn, Deliver, Serve;
    hide BornOk, HandlesOk, PlacementsOk, ReturnsOk, StraysOk, ObjectsOk, Publishes;
    match step
    case Attempt(task, net, id, size) =>
      AttemptObjects(st, task, net, id, size);
      DeliverObjects(st, task, net, id, size);
      OnlyOwnKey(st, task, backup, key, CloudAfter(st.cloud, st.jobs[task], net, id, size).objects, size);
    case Late(stray, id, size) => LateKeepsObject(st, stray, id, size, key);
    case _ =>
  }

  lemma OnlyOwnKey(st: State, task: nat, backup: nat, key: Key, objects: map<Key, Object>, size: nat)
    requires Core(st) && Published(st, backup, key) && task in st.jobs && st.jobs[task].phase.Calling?
    requires Publishes(st.cloud.objects, objects, st.jobs[task], size, false)
    ensures key in objects && objects[key] == st.cloud.objects[key]
  {
    hide EachJobOk, TasksHaveJobs, RowsOk, HostsOk;
  }

  lemma LateKeepsObject(st: State, stray: Stray, id: nat, size: nat, key: Key)
    requires stray in st.strays && Containers(st) && Backups(st) && key in st.cloud.objects
    ensures var objects := Serve(st.cloud, stray.endpoint, stray.request, id, size, true).0.objects;
      key in objects && SameUnlessLate(objects[key], st.cloud.objects[key])
  {
    hide BornOk, HandlesOk, PlacementsOk, ReturnsOk, Lockstep, AvailableOk, ClosingOk, RestoresOk, Serve;
    assert StrayOk(stray, st.jobs);
    ServePublishes(st.cloud, st.jobs[stray.task], stray.endpoint, stray.request, id, size, true);
  }

  lemma DeliverObjects(st: State, task: nat, net: Net, id: nat, size: nat)
    requires task in st.jobs && st.jobs[task].phase.Calling?
    ensures var after := Deliver(st, task, net, id, size);
      && after.cloud == CloudAfter(st.cloud, st.jobs[task], net, id, size)
      && after.jobs == st.jobs[task := JobAfter(st.cloud, st.jobs[task], net, id, size)]
      && after.ordered == st.ordered && after.db == st.db
  {
  }

  predicate KeepsRow(st: State, after: State, backup: nat) {
    backup in st.db.backups && backup in after.db.backups ==> after.db.backups[backup] == st.db.backups[backup]
  }

  lemma TransactKeepsAvailable(st: State, task: nat, choice: Option<nat>, silent: bool, backup: nat)
    requires Core(st) && Backups(st) && Enabled(st, Transact(task, choice, silent))
    requires backup in st.db.backups && st.db.backups[backup].status.Available?
    ensures KeepsRow(st, Apply(st, Transact(task, choice, silent)), backup)
  {
    hide Core, Backups, NextTx, SelectorMayReturn, TxOk, BackupsMove;
    NotItsJob(st, backup, task);
    TxBackups(st.db, task, st.jobs[task], choice, silent);
    TxLocal(st, task, choice, silent);
    TxSameJob(st, task, choice, silent);
    var tx := NextTx(st.db, task, st.jobs[task], choice, silent);
    OtherJobKeepsRow(st.db, tx.job, tx.db, backup);
  }

  lemma OtherJobKeepsRow(db: Db, job: Job, after: Db, backup: nat)
    requires BackupsMove(db, job, after) && backup in db.backups
    requires !(job.kind.Backup? && job.backup == Some(backup))
    ensures backup in after.backups ==> after.backups[backup] == db.backups[backup]
  {
  }

  lemma NotItsJob(st: State, backup: nat, task: nat)
    requires Core(st) && Backups(st) && backup in st.db.backups && st.db.backups[backup].status.Available?
    requires task in st.jobs && !st.jobs[task].phase.Ended?
    ensures st.jobs[task].kind.Backup? ==> st.jobs[task].origin.backup != backup
  {
    AvailableIsDone(st, backup);
    hide EachJobOk, TasksHaveJobs, HostsOk, Backups, RowsOk;
  }

  lemma TxSameJob(st: State, task: nat, choice: Option<nat>, silent: bool)
    requires MayTransact(st, task) && Core(st)
    ensures SameJob(st.jobs[task], NextTx(st.db, task, st.jobs[task], choice, silent).job)
  {
    hide NextTx, SelectorMayReturn, JobsOk, RowsOk, JobOk, Leaves;
    TxKeepsJob(st.db, st.jobs, st.made, st.ordered, task, choice, silent);
  }

  lemma CommitKeepsBackup(st: State, task: nat, owner: nat, resources: Resources, backup: nat)
    requires Core(st) && Enabled(st, Commit(task, owner, resources)) && backup in st.db.backups
    ensures var after := Committed(st.db, task, st.jobs[task], owner, resources).backups;
      backup in after && after[backup] == st.db.backups[backup]
  {
    hide EachJobOk, TasksHaveJobs, HostsOk, Committed, ServerKeys, TaskKeys, RestoreKeys, OriginKeys, MayCommit;
    CommittedBackups(st.db, task, st.jobs[task], owner, resources);
  }

  lemma StepKeepsAvailable(st: State, step: Step, backup: nat)
    requires Core(st) && Backups(st) && Enabled(st, step)
    requires backup in st.db.backups && st.db.backups[backup].status.Available?
    ensures KeepsRow(st, Apply(st, step), backup)
  {
    hide Core, Backups, NextTx, Committed, SelectorMayReturn, Deliver;
    match step
    case Attempt(task, net, id, size) => DeliverObjects(st, task, net, id, size);
    case Commit(task, owner, resources) => CommitKeepsBackup(st, task, owner, resources, backup);
    case Transact(task, choice, silent) => TransactKeepsAvailable(st, task, choice, silent, backup);
    case _ =>
  }

  lemma GoneStaysGone(st: State, step: Step, backup: nat)
    requires Core(st) && Enabled(st, step)
    requires backup !in st.db.backups && backup in st.ordered && st.ordered[backup] in st.db.tasks
    ensures backup !in Apply(st, step).db.backups
  {
    hide EachJobOk, TasksHaveJobs, HostsOk, NextTx, Committed, SelectorMayReturn, Deliver, Serve, RowsOk;
    match step
    case Attempt(task, net, id, size) => DeliverObjects(st, task, net, id, size);
    case Commit(task, owner, resources) =>
      CommittedBackups(st.db, task, st.jobs[task], owner, resources);
    case Transact(task, choice, silent) => TxBackups(st.db, task, st.jobs[task], choice, silent);
    case _ =>
  }

  lemma StepKeepsOrdered(st: State, step: Step, backup: nat)
    requires Core(st) && Enabled(st, step) && backup in st.ordered && st.ordered[backup] in st.db.tasks
    ensures var after := Apply(st, step);
      backup in after.ordered && after.ordered[backup] == st.ordered[backup] && after.ordered[backup] in after.db.tasks
  {
    hide EachJobOk, HostsOk, NextTx, Committed, SelectorMayReturn, Deliver, Serve, RowsOk, Histories;
    match step
    case Attempt(task, net, id, size) => DeliverObjects(st, task, net, id, size);
    case Commit(task, owner, resources) => CommittedTask(st.db, task, st.jobs[task], owner, resources);
    case Transact(task, choice, silent) => TxKeepsJob(st.db, st.jobs, st.made, st.ordered, task, choice, silent);
    case _ =>
  }

  /** What a backup that was available keeps: its row while there is one, and its object. */
  ghost predicate StillAvailable(st: State, backup: nat, row: BackupRow, content: Object) {
    && (backup in st.db.backups ==> st.db.backups[backup] == row)
    && row.key in st.cloud.objects && SameUnlessLate(st.cloud.objects[row.key], content)
    && Published(st, backup, row.key)
    && backup in st.ordered && st.ordered[backup] in st.db.tasks
  }

  lemma BecomesAvailable(st: State, backup: nat)
    requires Core(st) && Backups(st) && backup in st.db.backups && st.db.backups[backup].status.Available?
    ensures var row := st.db.backups[backup];
      row.key in st.cloud.objects && StillAvailable(st, backup, row, st.cloud.objects[row.key])
  {
    AvailableIsPublished(st, backup);
    hide EachJobOk, TasksHaveJobs, HostsOk, Backups, ServerKeys, TaskKeys, RestoreKeys, OriginKeys;
  }

  lemma StepKeepsStillAvailable(st: State, step: Step, backup: nat, row: BackupRow, content: Object)
    requires Core(st) && Containers(st) && Backups(st) && Enabled(st, step) && row.status.Available?
    requires StillAvailable(st, backup, row, content)
    ensures StillAvailable(Apply(st, step), backup, row, content)
  {
    hide Core, Containers, Backups, Enabled, Apply, Published;
    StepKeepsPublished(st, step, backup, row.key);
    InObjects(Apply(st, step), backup, row.key);
    StepKeepsOrdered(st, step, backup);
    if backup in st.db.backups {
      StepKeepsAvailable(st, step, backup);
    } else {
      GoneStaysGone(st, step, backup);
    }
  }

  /** Once available, a backup row never changes until it is removed with its server and never comes
      back after that; its object stays published and is never overwritten, unless the agent carries
      out an earlier attempt late. */
  lemma {:induction false} AvailableIsForever(states: seq<State>, steps: seq<Step>, i: nat, j: nat, backup: nat)
    requires IsRun(states, steps) && i <= j < |states|
    requires backup in states[i].db.backups && states[i].db.backups[backup].status.Available?
    ensures var row := states[i].db.backups[backup];
      row.key in states[i].cloud.objects && StillAvailable(states[j], backup, row, states[i].cloud.objects[row.key])
    decreases j
  {
    hide Invariant, Core, Containers, Backups, Enabled, Apply, StillAvailable, IsRun;
    RunKeepsInvariant(states, steps, i);
    Parts(states[i]);
    BecomesAvailable(states[i], backup);
    if i < j {
      AvailableIsForever(states, steps, i, j - 1, backup);
      RunStep(states, steps, j - 1);
      RunKeepsInvariant(states, steps, j - 1);
      Parts(states[j - 1]);
      var row := states[i].db.backups[backup];
      StepKeepsStillAvailable(states[j - 1], steps[j - 1], backup, row, states[i].cloud.objects[row.key]);
    }
  }

  lemma InObjects(st: State, backup: nat, key: Key)
    requires Published(st, backup, key)
    ensures key in st.cloud.objects
  {
  }

  /** An available backup whose object has another size than recorded; `late` says whether a late
      request wrote it. */
  ghost predicate Resized(st: State, backup: nat, late: bool) {
    && Reachable(st) && backup in st.db.backups && st.db.backups[backup].status.Available?
    && st.db.backups[backup].key in st.cloud.objects
    && st.cloud.objects[st.db.backups[backup].key].size != st.db.backups[backup].size
    && st.cloud.objects[st.db.backups[backup].key].late == late
  }

  /** That an available backup is the one recorded holds over all runs if and only if no request is
      carried out after its client gave up. */
  lemma RecordedObject(late: bool)
    ensures (forall st: State, backup: nat :: !Resized(st, backup, late)) <==> !late
  {
    hide Reachable;
    if late {
      var st := OverwrittenLate();
      assert Resized(st, 3, true);
    } else {
      forall st: State, backup: nat ensures !Resized(st, backup, false) {
        if Reachable(st) && backup in st.db.backups {
          BackupFollowsTask(st, backup);
        }
      }
    }
  }

  // ----- what a backup reads

  /** In every reachable state: a queued backup job whose task is committed goes on after its first
      transaction if and only if the task still names its server, the server has a node and a
      container, whatever its status, and the backup has its row. It then asks the recorded node for
      its own server's volume under the key `{server}/{backup}`; and if it does not go on, task and
      backup have failed. */
  lemma BackupAsksForOwnVolume(st: State, task: nat, choice: Option<nat>, silent: bool)
    requires Reachable(st) && task in st.jobs && st.jobs[task].kind.Backup? && st.jobs[task].phase.Queued?
    requires task in st.db.tasks
    ensures var tx := NextTx(st.db, task, st.jobs[task], choice, silent);
      var Origin(server, backup) := st.jobs[task].origin;
      && (!tx.job.phase.Ended? <==>
            && st.db.tasks[task].server == Some(server) && server in st.db.servers
            && st.db.servers[server].node.Some? && st.db.servers[server].container.Some? && backup in st.db.backups)
      && (!tx.job.phase.Ended? ==>
            var row := st.db.servers[server];
            && row.node.value in st.db.nodes
            && tx.job.phase == Calling(row.node.value, st.db.nodes[row.node.value].endpoint,
                                       RunBackup(row.container.value, server, Key(server, backup)), 0))
      && (tx.job.phase.Ended? ==>
            && task in tx.db.tasks && tx.db.tasks[task].status == TaskStatus.Failed
            && (backup in tx.db.backups ==> tx.db.backups[backup].status == BackupStatus.Failed))
  {
    hide IsRun, Core, Invariant, Backups, NextTx;
    ReachableInvariant(st);
    Parts(st);
    BackupFacts(st, task);
    JobStages.BackupBegins(st.db, task, st.jobs[task], choice, silent);
  }

  lemma BackupFacts(st: State, task: nat)
    requires Core(st) && task in st.jobs && st.jobs[task].kind.Backup? && task in st.db.tasks
    ensures var Origin(server, backup) := st.jobs[task].origin;
      && st.db.tasks[task].backup == Some(backup)
      && (st.db.tasks[task].server.Some? ==> st.db.tasks[task].server == Some(server))
      && (backup in st.db.backups ==> st.db.backups[backup].key == Key(server, backup))
      && (server in st.db.servers && st.db.servers[server].node.Some? ==>
            st.db.servers[server].node.value in st.db.nodes)
  {
    hide HostsOk, TaskKeys, OriginKeys, EachJobOk, PhaseOk, RestoreKeys;
    JobOf(st, task);
  }

  // ----- restore

  /** The guard of a restore job's first transaction. */
  predicate MayRestore(db: Db, server: nat, backup: nat) {
    && server in db.servers && db.servers[server].status.Stopped?
    && db.servers[server].node.Some? && db.servers[server].container.Some?
    && backup in db.backups
  }

  /** A restore job goes on after its first transaction exactly when it finds the server stopped
      and placed and the backup row there; what it then reads is an available backup of the same
      server, and it asks for the published object that was taken from the volume it restores to. */
  lemma RestoreReadsAvailable(st: State, task: nat)
    requires Reachable(st) && task in st.jobs && st.jobs[task].kind.Restore? && st.jobs[task].phase.Queued?
    requires task in st.db.tasks
    ensures var job := st.jobs[task];
      var after := Begin(st.db, task, job).job;
      var Origin(server, backup) := job.origin;
      && st.db.tasks[task].backup == Some(backup)
      && (!after.phase.Ended? <==> MayRestore(st.db, server, backup) && st.db.tasks[task].server == Some(server))
      && (!after.phase.Ended? ==>
            var row := st.db.backups[backup];
            && row.status.Available? && row.server == server
            && Holding(st.cloud.objects, row.key, server, row.size)
            && (after.phase.Calling? ==>
                  && after.phase.endpoint == st.db.nodes[st.db.servers[server].node.value].endpoint
                  && after.phase.request == RunRestore(st.db.servers[server].container.value, server, row.key)))
  {
    hide IsRun, Core, Backups, RestoreBegin, Invariant;
    ReachableInvariant(st);
    Parts(st);
    var job := st.jobs[task];
    RestoreFacts(st, task);
    RestoreGuard(st.db, task, Started(st.db, task, job));
  }

  lemma RestoreFacts(st: State, task: nat)
    requires Core(st) && Backups(st) && task in st.jobs && st.jobs[task].kind.Restore? && task in st.db.tasks
    ensures var Origin(server, backup) := st.jobs[task].origin;
      && st.db.tasks[task].backup == Some(backup)
      && (st.db.tasks[task].server.Some? ==> st.db.tasks[task].server == Some(server))
      && (backup in st.db.backups ==>
            && st.db.backups[backup].status.Available? && st.db.backups[backup].server == server
            && Holding(st.cloud.objects, st.db.backups[backup].key, server, st.db.backups[backup].size))
      && (server in st.db.servers && st.db.servers[server].node.Some? ==>
            st.db.servers[server].node.value in st.db.nodes)
  {
    hide HostsOk, Lockstep, ClosingOk, TaskKeys, OriginKeys, EachJobOk, PhaseOk;
    JobOf(st, task);
  }

  lemma RestoreGuard(db: Db, task: nat, job: Job)
    requires task in db.tasks && job.kind.Restore?
    ensures var row := db.tasks[task];
      var after := RestoreBegin(db, task, job).job;
      && (!after.phase.Ended? <==>
            row.server.Some? && row.backup.Some? && MayRestore(db, row.server.value, row.backup.value))
      && (after.phase.Calling? ==>
            var server := row.server.value;
            && server in db.servers && db.servers[server].node.Some? && db.servers[server].container.Some?
            && db.servers[server].node.value in db.nodes && row.backup.Some? && row.backup.value in db.backups
            && after.phase.endpoint == db.nodes[db.servers[server].node.value].endpoint
            && after.phase.request ==
                 RunRestore(db.servers[server].container.value, server, db.backups[row.backup.value].key))
  {
  }

  /** While the job then waits for the agent, the object it asked for stays published and stays
      one taken from the volume it restores to, even if the server or the backup row goes. */
  lemma RestoreTargetsOwnVolume(st: State, task: nat)
    requires Reachable(st) && task in st.jobs && st.jobs[task].kind.Restore? && st.jobs[task].phase.Calling?
    ensures var request := st.jobs[task].phase.request;
      && request.RunRestore? && request.volume == st.jobs[task].origin.server
      && request.key in st.cloud.objects && st.cloud.objects[request.key].volume == request.volume
  {
    hide IsRun, Core, Backups, Invariant;
    ReachableInvariant(st);
    Parts(st);
    RestoreTarget(st, task);
  }

  lemma RestoreTarget(st: State, task: nat)
    requires Core(st) && Backups(st) && task in st.jobs && st.jobs[task].kind.Restore? && st.jobs[task].phase.Calling?
    ensures var request := st.jobs[task].phase.request;
      && request.RunRestore? && request.volume == st.jobs[task].origin.server
      && request.key in st.cloud.objects && st.cloud.objects[request.key].volume == request.volume
  {
    hide HostsOk, Lockstep, ClosingOk, RowsOk, EachJobOk, AvailableOk, Histories;
    JobOf(st, task);
  }
}
