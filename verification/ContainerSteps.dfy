/** Every step keeps the container invariant. */
module ContainerSteps {
  import opened Wrappers
  import opened Rows
  import opened Repositories
  import opened Agent
  import opened NodeAgentClient
  import opened Jobs
  import opened Protocol
  import opened JobInvariant
  import opened CoreInvariant
  import opened ContainerInvariant

  // ----- what a transaction does to the server table

  ghost predicate ServersMove(db: Db, job: Job, tx: Tx) {
    match job.phase
    case Marked =>
      || tx.db.servers == db.servers
      || tx.db.servers == SetStatus(db, tx.job.server, ServerStatus.Provisioning).servers
    case Placing(node, container) =>
      || tx.db.servers == db.servers
      || (job.server.Some? && job.server.value in db.servers && node in db.nodes
          && tx.db.servers == SetProvisioned(db, job.server.value, node, container).servers)
    case Closing(_) =>
      if IsLifecycle(job.kind) then tx.db.servers == SetStatus(db, job.server, Target(job.kind)).servers
      else if job.kind.Delete? then tx.db.servers == DeleteServer(db, job.server).servers
      else tx.db.servers == db.servers
    case Failing =>
      if job.kind.Provision? then tx.db.servers == SetStatus(db, job.server, ServerStatus.Failed).servers
      else tx.db.servers == db.servers
    case _ => tx.db.servers == db.servers
  }

  lemma TxServers(db: Db, task: nat, job: Job, choice: Option<nat>, silent: bool)
    requires !job.phase.Calling? && !job.phase.Ended?
    ensures ServersMove(db, job, NextTx(db, task, job, choice, silent))
  {
    hide Begin, Close, Fail, Mourn;
    match job.phase
    case Queued => BeginServers(db, task, job);
    case Orphan => MournServers(db, task, job);
    case Closing(_) => CloseServers(db, task, job);
    case Failing => FailServers(db, task, job);
    case _ =>
  }

  lemma BeginServers(db: Db, task: nat, job: Job)
    ensures Begin(db, task, job).db.servers == db.servers
  {
    match job.kind
    case Provision =>
    case Delete =>
    case Backup =>
    case Restore =>
    case _ =>
  }

  lemma MournServers(db: Db, task: nat, job: Job)
    ensures Mourn(db, task, job).db.servers == db.servers
  {
  }

  lemma CloseServers(db: Db, task: nat, job: Job)
    requires job.phase.Closing?
    ensures ServersMove(db, job, Close(db, task, job))
  {
  }

  lemma FailServers(db: Db, task: nat, job: Job)
    requires job.phase.Failing?
    ensures ServersMove(db, job, Fail(db, task, job))
  {
  }

  lemma StatusKeepsPlacements(db: Db, server: Option<nat>, status: ServerStatus, born: map<nat, Container>,
                              hosts: map<nat, Option<nat>>, jobs: map<nat, Job>, made: map<nat, nat>)
    requires PlacementsOk(db.servers, born, hosts, jobs, made)
    requires server.Some? && server.value in db.servers && (status.Running? || status.Stopped?) ==>
               db.servers[server.value].container.Some?
    ensures PlacementsOk(SetStatus(db, server, status).servers, born, hosts, jobs, made)
  {
    var after := SetStatus(db, server, status).servers;
    forall s | s in after ensures PlacementOk(after[s], s, born, hosts) {
      assert PlacementOk(db.servers[s], s, born, hosts);
    }
  }

  lemma ProvisionedKeepsPlacements(db: Db, server: nat, node: nat, container: nat, born: map<nat, Container>,
                                   hosts: map<nat, Option<nat>>, jobs: map<nat, Job>, made: map<nat, nat>)
    requires PlacementsOk(db.servers, born, hosts, jobs, made)
    requires container in born && At(hosts, node, born[container].endpoint)
    requires born[container].name == server && !born[container].late
    requires server in made && made[server] in jobs && Settled(jobs[made[server]])
    ensures PlacementsOk(SetProvisioned(db, server, node, container).servers, born, hosts, jobs, made)
  {
    var after := SetProvisioned(db, server, node, container).servers;
    forall s | s in after ensures PlacementOk(after[s], s, born, hosts) {
      assert PlacementOk(db.servers[s], s, born, hosts);
    }
  }

  lemma RemovalKeepsPlacements(db: Db, server: Option<nat>, born: map<nat, Container>, hosts: map<nat, Option<nat>>,
                               jobs: map<nat, Job>, made: map<nat, nat>)
    requires PlacementsOk(db.servers, born, hosts, jobs, made)
    ensures PlacementsOk(DeleteServer(db, server).servers, born, hosts, jobs, made)
  {
    var after := DeleteServer(db, server).servers;
    forall s | s in after ensures PlacementOk(after[s], s, born, hosts) {
      assert PlacementOk(db.servers[s], s, born, hosts);
    }
  }

  /** The job of a server's container is done with it when it is recorded. */
  lemma TxKeepsPlacements(st: State, task: nat, choice: Option<nat>, silent: bool)
    requires MayTransact(st, task) && Core(st) && Containers(st)
    ensures var tx := NextTx(st.db, task, st.jobs[task], choice, silent);
      PlacementsOk(tx.db.servers, st.cloud.born, st.hosts, st.jobs[task := tx.job], st.made)
  {
    hide NextTx, SelectorMayReturn, RowsOk, HostsOk, BornOk, SetStatus, SetProvisioned, DeleteServer, PlacementsOk,
      Steady, PlacementOk, ReturnOk, HandleOk, JobOk, EachJobOk, TasksHaveJobs, Histories, ReturnsOk, HandlesOk;
    var job := st.jobs[task];
    var tx := NextTx(st.db, task, job, choice, silent);
    var jobs := st.jobs[task := tx.job];
    JobOf(st, task);
    TxSteady(st.db, task, job, choice, silent);
    TxServers(st.db, task, job, choice, silent);
    PlacementsOkAfter(st.db.servers, st.cloud.born, st.hosts, st.jobs, st.made, task, tx.job);
    match job.phase
    case Marked =>
      StatusKeepsPlacements(st.db, tx.job.server, ServerStatus.Provisioning, st.cloud.born, st.hosts, jobs, st.made);
    case Placing(node, container) =>
      if tx.db.servers != st.db.servers {
        PlacingFacts(st, task, choice, silent);
        ProvisionedKeepsPlacements(st.db, job.server.value, node, container, st.cloud.born, st.hosts, jobs, st.made);
      }
    case Closing(_) =>
      if IsLifecycle(job.kind) {
        LifecycleFacts(st, task);
        StatusKeepsPlacements(st.db, job.server, Target(job.kind), st.cloud.born, st.hosts, jobs, st.made);
      } else if job.kind.Delete? {
        RemovalKeepsPlacements(st.db, job.server, st.cloud.born, st.hosts, jobs, st.made);
      }
    case Failing =>
      StatusKeepsPlacements(st.db, job.server, ServerStatus.Failed, st.cloud.born, st.hosts, jobs, st.made);
    case _ =>
  }

  lemma JobOf(st: State, task: nat)
    requires Core(st) && task in st.jobs
    ensures JobOk(st.jobs[task], Find(st.db.tasks, task))
  {
  }

  lemma PlacingFacts(st: State, task: nat, choice: Option<nat>, silent: bool)
    requires Core(st) && Containers(st) && task in st.jobs && st.jobs[task].phase.Placing?
    requires st.jobs[task].server.Some?
    requires st.jobs[task].server.value in st.db.servers
    ensures var job := st.jobs[task];
      var tx := NextTx(st.db, task, job, choice, silent);
      && job.server.value in st.made && st.made[job.server.value] == task
      && job.phase.container in st.cloud.born
      && At(st.hosts, job.phase.node, st.cloud.born[job.phase.container].endpoint)
      && st.cloud.born[job.phase.container].name == job.server.value && !st.cloud.born[job.phase.container].late
      && Settled(tx.job)
  {
    hide RowsOk, EachJobOk, TasksHaveJobs, BornOk, PlacementsOk, ReturnsOk, StraysOk, HostsOk, HoldsOk, RowOk;
    JobOf(st, task);
    assert HandleOk(st.jobs[task], st.cloud.born, st.hosts);
  }

  lemma LifecycleFacts(st: State, task: nat)
    requires Core(st) && Containers(st) && task in st.jobs && st.jobs[task].phase.Closing?
      && IsLifecycle(st.jobs[task].kind)
    ensures st.jobs[task].server.Some?
    ensures st.jobs[task].server.value in st.db.servers ==> st.db.servers[st.jobs[task].server.value].container.Some?
  {
    JobOf(st, task);
    if st.jobs[task].server.value in st.db.servers {
      assert ReturnOk(st.jobs[task], st.db.servers[st.jobs[task].server.value], st.cloud.live, st.cloud.born);
    }
  }

  // ----- the container a job holds

  lemma BeginHolds(st: State, task: nat)
    requires Core(st) && Containers(st) && task in st.jobs && st.jobs[task].phase.Queued?
    ensures var after := Begin(st.db, task, st.jobs[task]).job;
      HandleOk(after, st.cloud.born, st.hosts) && HoldsOk(after, st.cloud.born, st.jobs, st.made)
  {
    hide BornOk, ReturnsOk, HandlesOk, BackupKeys, RestoreKeys, OriginKeys, TasksHaveJobs, EachJobOk, Histories;
    JobOf(st, task);
    var job := st.jobs[task];
    if task in st.db.tasks && st.db.tasks[task].server.Some? {
      var server := st.db.tasks[task].server.value;
      assert server in st.db.servers && server == job.origin.server;
      assert PlacementOk(st.db.servers[server], server, st.cloud.born, st.hosts);
      match job.kind {
        case Provision =>
        case Delete => DeleteBeginHolds(st.db, task, Started(st.db, task, job), st.cloud.born, st.hosts, st.jobs,
          st.made);
        case Backup =>
        case Restore =>
        case _ =>
      }
    } else {
      match job.kind {
        case Provision =>
        case Delete =>
        case Backup =>
        case Restore =>
        case _ =>
      }
    }
  }

  lemma DeleteBeginHolds(db: Db, task: nat, job: Job, born: map<nat, Container>, hosts: map<nat, Option<nat>>,
                         jobs: map<nat, Job>, made: map<nat, nat>)
    requires task in db.tasks && db.tasks[task].server == Some(job.origin.server) && job.origin.server in db.servers
    requires PlacementsOk(db.servers, born, hosts, jobs, made) && job.agent.None?
    ensures var after := DeleteBegin(db, task, job).job;
      HandleOk(after, born, hosts) && (job.kind.Delete? ==> HoldsOk(after, born, jobs, made))
  {
    assert PlacementOk(db.servers[job.origin.server], job.origin.server, born, hosts);
  }

  lemma TxHolds(st: State, task: nat, choice: Option<nat>, silent: bool)
    requires MayTransact(st, task) && Core(st) && Containers(st)
    ensures var after := NextTx(st.db, task, st.jobs[task], choice, silent).job;
      HandleOk(after, st.cloud.born, st.hosts) && HoldsOk(after, st.cloud.born, st.jobs, st.made)
  {
    hide SelectorMayReturn, BornOk, ReturnsOk, PlacementsOk, RowsOk, EachJobOk, Begin, Fail, Mourn, Place;
    var job := st.jobs[task];
    assert HandleOk(job, st.cloud.born, st.hosts) && HoldsOk(job, st.cloud.born, st.jobs, st.made);
    match job.phase
    case Queued => BeginHolds(st, task);
    case Marked => SelectHolds(st, task, choice);
    case Lookup(_) =>
    case Orphan => MournHolds(st, task);
    case Placing(_, _) => PlaceHolds(st, task, silent);
    case Closing(_) =>
    case Failing => FailHolds(st, task);
  }

  lemma SelectHolds(st: State, task: nat, choice: Option<nat>)
    requires Core(st) && task in st.jobs && st.jobs[task].phase.Marked?
    ensures var after := ProvisionSelect(st.db, task, st.jobs[task], choice).job;
      HandleOk(after, st.cloud.born, st.hosts) && HoldsOk(after, st.cloud.born, st.jobs, st.made)
  {
    hide RowsOk;
    JobOf(st, task);
  }

  lemma PlaceHolds(st: State, task: nat, silent: bool)
    requires Core(st) && Containers(st) && task in st.jobs && st.jobs[task].phase.Placing?
    ensures var after := Place(st.db, st.jobs[task], silent).job;
      HandleOk(after, st.cloud.born, st.hosts) && HoldsOk(after, st.cloud.born, st.jobs, st.made)
  {
    hide RowsOk, EachJobOk, BornOk, ReturnsOk, PlacementsOk, StraysOk;
    JobOf(st, task);
    assert HandleOk(st.jobs[task], st.cloud.born, st.hosts);
  }

  lemma FailHolds(st: State, task: nat)
    requires Containers(st) && task in st.jobs && st.jobs[task].phase.Failing?
    ensures var after := Fail(st.db, task, st.jobs[task]).job;
      HandleOk(after, st.cloud.born, st.hosts) && HoldsOk(after, st.cloud.born, st.jobs, st.made)
  {
    hide BornOk, ReturnsOk, PlacementsOk;
    assert HoldsOk(st.jobs[task], st.cloud.born, st.jobs, st.made);
  }

  lemma MournHolds(st: State, task: nat)
    requires Containers(st) && task in st.jobs && st.jobs[task].phase.Orphan?
    ensures var after := Mourn(st.db, task, st.jobs[task]).job;
      HandleOk(after, st.cloud.born, st.hosts) && HoldsOk(after, st.cloud.born, st.jobs, st.made)
  {
    hide BornOk, ReturnsOk, PlacementsOk;
    assert HoldsOk(st.jobs[task], st.cloud.born, st.jobs, st.made);
  }

  // ----- coming back to the server row

  lemma OtherReturns(job: Job, before: ServerRow, after: ServerRow, live: set<nat>, born: map<nat, Container>)
    requires ReturnOk(job, before, live, born)
    requires after.container == before.container && (after.node == before.node || after.node.None?)
    ensures ReturnOk(job, after, live, born)
  {
  }

  lemma ReturnsAfterServers(jobs: map<nat, Job>, servers: map<nat, ServerRow>, after: map<nat, ServerRow>,
                            cloud: Cloud)
    requires ReturnsOk(jobs, servers, cloud)
    requires forall s :: s in after ==>
      && s in servers && after[s].container == servers[s].container
      && (after[s].node == servers[s].node || after[s].node.None?)
    ensures ReturnsOk(jobs, after, cloud)
  {
    forall t | t in jobs && jobs[t].server.Some? && jobs[t].server.value in after
      ensures ReturnOk(jobs[t], after[jobs[t].server.value], cloud.live, cloud.born)
    {
      OtherReturns(jobs[t], servers[jobs[t].server.value], after[jobs[t].server.value], cloud.live, cloud.born);
    }
  }

  /** A placement is recorded while no delete job has read a container of that server. */
  lemma ReturnsAfterPlacement(jobs: map<nat, Job>, servers: map<nat, ServerRow>, db: Db, server: nat, node: nat,
                              container: nat, cloud: Cloud, made: map<nat, nat>)
    requires ReturnsOk(jobs, servers, cloud) && db.servers == servers && server in servers
    requires forall t :: t in jobs ==> HoldsOk(jobs[t], cloud.born, jobs, made)
    requires forall t :: t in jobs && jobs[t].server.Some? ==> jobs[t].server.value == jobs[t].origin.server
    requires server in made && made[server] in jobs && !Settled(jobs[made[server]])
    ensures ReturnsOk(jobs, SetProvisioned(db, server, node, container).servers, cloud)
  {
    var after := SetProvisioned(db, server, node, container).servers;
    forall t | t in jobs && jobs[t].server.Some? && jobs[t].server.value in after
      ensures ReturnOk(jobs[t], after[jobs[t].server.value], cloud.live, cloud.born)
    {
      assert ReturnOk(jobs[t], servers[jobs[t].server.value], cloud.live, cloud.born);
      assert HoldsOk(jobs[t], cloud.born, jobs, made);
    }
  }

  lemma ReturnsAfterJob(jobs: map<nat, Job>, servers: map<nat, ServerRow>, cloud: Cloud, task: nat, job: Job)
    requires ReturnsOk(jobs, servers, cloud)
    requires job.server.Some? && job.server.value in servers ==>
      ReturnOk(job, servers[job.server.value], cloud.live, cloud.born)
    ensures ReturnsOk(jobs[task := job], servers, cloud)
  {
  }

  lemma LocalsOf(st: State)
    requires Core(st)
    ensures forall t :: t in st.jobs && st.jobs[t].server.Some? ==> st.jobs[t].server.value == st.jobs[t].origin.server
  {
    hide RowsOk, Histories, PhaseOk, RowOk;
    forall t | t in st.jobs && st.jobs[t].server.Some? ensures st.jobs[t].server.value == st.jobs[t].origin.server {
      JobOf(st, t);
    }
  }

  lemma ReturnsAfterMove(st: State, task: nat, choice: Option<nat>, silent: bool)
    requires MayTransact(st, task) && Core(st) && Containers(st)
    ensures ReturnsOk(st.jobs, NextTx(st.db, task, st.jobs[task], choice, silent).db.servers, st.cloud)
  {
    hide NextTx, SelectorMayReturn, RowsOk, BornOk, ReturnsOk, ReturnOk, HoldsOk, HandleOk, EachJobOk,
      JobOk, TasksHaveJobs, Histories, PlacementsOk;
    var job := st.jobs[task];
    var tx := NextTx(st.db, task, job, choice, silent);
    TxServers(st.db, task, job, choice, silent);
    if job.phase.Placing? && tx.db.servers != st.db.servers {
      PlacingFacts(st, task, choice, silent);
      LocalsOf(st);
      ReturnsAfterPlacement(st.jobs, st.db.servers, st.db, job.server.value, job.phase.node, job.phase.container,
                            st.cloud, st.made);
    } else {
      ReturnsAfterServers(st.jobs, st.db.servers, tx.db.servers, st.cloud);
    }
  }

  lemma ReturnsAfterTx(st: State, task: nat, choice: Option<nat>, silent: bool)
    requires MayTransact(st, task) && Core(st) && Containers(st)
    ensures var tx := NextTx(st.db, task, st.jobs[task], choice, silent);
      ReturnsOk(st.jobs[task := tx.job], tx.db.servers, st.cloud)
  {
    hide NextTx, SelectorMayReturn, Core, Containers, ReturnsOk, ReturnOk;
    ReturnsAfterMove(st, task, choice, silent);
    OwnReturn(st, task, choice, silent);
    var tx := NextTx(st.db, task, st.jobs[task], choice, silent);
    ReturnsAfterJob(st.jobs, tx.db.servers, st.cloud, task, tx.job);
  }

  lemma OwnReturn(st: State, task: nat, choice: Option<nat>, silent: bool)
    requires MayTransact(st, task) && Core(st) && Containers(st)
    ensures var tx := NextTx(st.db, task, st.jobs[task], choice, silent);
      tx.job.server.Some? && tx.job.server.value in tx.db.servers ==>
        ReturnOk(tx.job, tx.db.servers[tx.job.server.value], st.cloud.live, st.cloud.born)
  {
    hide SelectorMayReturn, RowsOk, BornOk, HandlesOk, TasksHaveJobs, Histories, PlacementsOk, Begin, Fail, Mourn,
      Place, Close;
    var job := st.jobs[task];
    JobOf(st, task);
    match job.phase
    case Queued => BeginReturn(st, task);
    case Marked =>
    case Lookup(_) => LookupReturn(st, task);
    case Orphan => MournReturn(st, task);
    case Placing(_, _) =>
      var tx := Place(st.db, job, silent);
      PlaceReturn(st.db, job, silent);
    case Closing(_) => CloseReturn(st, task);
    case Failing => FailReturn(st, task);
  }

  lemma PlaceReturn(db: Db, job: Job, silent: bool)
    requires job.phase.Placing? && job.kind.Provision?
    ensures Place(db, job, silent).job.kind.Provision?
  {
  }

  lemma BeginReturn(st: State, task: nat)
    requires Core(st) && Containers(st) && task in st.jobs && st.jobs[task].phase.Queued?
    ensures var tx := Begin(st.db, task, st.jobs[task]);
      tx.job.server.Some? && tx.job.server.value in tx.db.servers ==>
        ReturnOk(tx.job, tx.db.servers[tx.job.server.value], st.cloud.live, st.cloud.born)
  {
    hide RowsOk, BornOk, HandlesOk, ReturnsOk, TasksHaveJobs, Histories, PlacementsOk, EachJobOk;
    JobOf(st, task);
    var job := st.jobs[task];
    match job.kind
    case Provision =>
    case Delete =>
    case Backup =>
    case Restore =>
    case _ =>
  }

  lemma LookupReturn(st: State, task: nat)
    requires Core(st) && Containers(st) && task in st.jobs && st.jobs[task].phase.Lookup?
    ensures var job := ReadNode(st.db, st.jobs[task]);
      job.server.Some? && job.server.value in st.db.servers ==>
        ReturnOk(job, st.db.servers[job.server.value], st.cloud.live, st.cloud.born)
  {
    hide BornOk, HandlesOk, TasksHaveJobs, Histories, PlacementsOk, TaskKeys, BackupKeys, RestoreKeys, OriginKeys;
    JobOf(st, task);
    var job := st.jobs[task];
    if job.server.value in st.db.servers {
      assert ReturnOk(job, st.db.servers[job.server.value], st.cloud.live, st.cloud.born);
    }
  }

  lemma MournReturn(st: State, task: nat)
    requires Core(st) && task in st.jobs && st.jobs[task].phase.Orphan?
    ensures var tx := Mourn(st.db, task, st.jobs[task]);
      tx.job.server.Some? && tx.job.server.value in tx.db.servers ==>
        ReturnOk(tx.job, tx.db.servers[tx.job.server.value], st.cloud.live, st.cloud.born)
  {
    hide RowsOk;
    JobOf(st, task);
  }

  lemma CloseReturn(st: State, task: nat)
    requires Core(st) && Containers(st) && task in st.jobs && st.jobs[task].phase.Closing?
    ensures var tx := Close(st.db, task, st.jobs[task]);
      tx.job.server.Some? && tx.job.server.value in tx.db.servers ==>
        ReturnOk(tx.job, tx.db.servers[tx.job.server.value], st.cloud.live, st.cloud.born)
  {
    hide RowsOk, BornOk, HandlesOk, TasksHaveJobs, Histories, PlacementsOk, EachJobOk;
    var job := st.jobs[task];
    TxServers(st.db, task, job, None, false);
  }

  lemma FailReturn(st: State, task: nat)
    requires Core(st) && Containers(st) && task in st.jobs && st.jobs[task].phase.Failing?
    ensures var tx := Fail(st.db, task, st.jobs[task]);
      tx.job.server.Some? && tx.job.server.value in tx.db.servers ==>
        ReturnOk(tx.job, tx.db.servers[tx.job.server.value], st.cloud.live, st.cloud.born)
  {
    hide RowsOk, BornOk, HandlesOk, TasksHaveJobs, Histories, PlacementsOk, EachJobOk;
    var job := st.jobs[task];
    TxServers(st.db, task, job, None, false);
  }

  lemma TransactKeepsContainers(st: State, task: nat, choice: Option<nat>, silent: bool)
    requires MayTransact(st, task) && Core(st) && Containers(st)
    ensures Containers(Run(st, task, NextTx(st.db, task, st.jobs[task], choice, silent)))
  {
    hide NextTx, SelectorMayReturn, RowsOk, BornOk, ReturnsOk, HandlesOk, PlacementsOk, Steady, HandleOk, HoldsOk,
      EachJobOk, TasksHaveJobs, Histories, JobOk, StraysOk;
    var tx := NextTx(st.db, task, st.jobs[task], choice, silent);
    JobOf(st, task);
    TxSteady(st.db, task, st.jobs[task], choice, silent);
    BornOkAfter(st.cloud, st.jobs, st.made, task, tx.job);
    TxHolds(st, task, choice, silent);
    HandlesOkAfter(st.jobs, st.cloud.born, st.hosts, st.made, task, tx.job);
    TxKeepsPlacements(st, task, choice, silent);
    ReturnsAfterTx(st, task, choice, silent);
    StraysOkAfter(st.strays, st.jobs, task, tx.job);
  }

  lemma ThrowKeepsContainers(st: State, task: nat)
    requires Core(st) && Containers(st) && Enabled(st, Throw(task))
    ensures Containers(Run(st, task, Tx(st.db, st.jobs[task].(phase := Failing))))
  {
    hide RowsOk, EachJobOk, Histories, TasksHaveJobs, BornOk, PlacementsOk, StraysOk;
    var job := st.jobs[task];
    var after := job.(phase := Failing);
    BornOkAfter(st.cloud, st.jobs, st.made, task, after);
    PlacementsOkAfter(st.db.servers, st.cloud.born, st.hosts, st.jobs, st.made, task, after);
    assert HoldsOk(job, st.cloud.born, st.jobs, st.made);
    assert HoldsOk(after, st.cloud.born, st.jobs, st.made);
    HandlesOkAfter(st.jobs, st.cloud.born, st.hosts, st.made, task, after);
    if job.server.Some? && job.server.value in st.db.servers {
      assert ReturnOk(job, st.db.servers[job.server.value], st.cloud.live, st.cloud.born);
    }
    ReturnsAfterJob(st.jobs, st.db.servers, st.cloud, task, after);
    StraysOkAfter(st.strays, st.jobs, task, after);
  }

  // ----- an attempt at a request

  function CloudAfter(cloud: Cloud, job: Job, net: Net, id: nat, size: nat): Cloud
    requires job.phase.Calling?
  {
    if Executed(net) then Serve(cloud, job.phase.endpoint, job.phase.request, id, size, false).0 else cloud
  }

  function JobAfter(cloud: Cloud, job: Job, net: Net, id: nat, size: nat): Job
    requires job.phase.Calling?
  {
    React(job, Seen(net, Serve(cloud, job.phase.endpoint, job.phase.request, id, size, false).1))
  }

  /** A repeated create finds the first container, and one carried out late finds it as long as it
      exists, so a server never has two at a time. */
  lemma CreateKeepsBorn(cloud: Cloud, jobs: map<nat, Job>, made: map<nat, nat>, task: nat, endpoint: nat, id: nat,
                        late: bool)
    requires BornOk(cloud, jobs, made) && id !in cloud.born && task in jobs && jobs[task].agent.Some?
      && jobs[task].agent.value.endpoint == endpoint
    requires !jobs[task].phase.Queued? && !jobs[task].phase.Marked? && (late || AsksForContainer(jobs[task]))
    requires jobs[task].origin.server in made && made[jobs[task].origin.server] == task
    ensures BornOk(Serve(cloud, endpoint, CreateContainer(jobs[task].origin.server), id, 0, late).0, jobs, made)
  {
    var job := jobs[task];
    forall c | c in cloud.born && cloud.born[c].name == job.origin.server
      ensures c in cloud.live ==> NameTaken(cloud, endpoint, job.origin.server)
      ensures !late ==> c in cloud.live
    {
      assert MadeBy(job, c, cloud.born[c], cloud.live);
    }
  }

  lemma RemoveKeepsBorn(cloud: Cloud, jobs: map<nat, Job>, made: map<nat, nat>, container: nat)
    requires BornOk(cloud, jobs, made)
    requires container in cloud.born && cloud.born[container].name in made && made[cloud.born[container].name] in jobs
    requires Settled(jobs[made[cloud.born[container].name]])
    ensures BornOk(cloud.(live := cloud.live - {container}), jobs, made)
  {
  }

  /** A request of a job keeps the containers sound, whether its client still waits or not. */
  lemma ServeKeepsBorn(st: State, task: nat, endpoint: nat, request: Request, id: nat, size: nat, late: bool)
    requires Core(st) && Containers(st) && StrayOk(Stray(task, endpoint, request), st.jobs) && id !in st.cloud.born
    requires late || !request.CreateContainer? || AsksForContainer(st.jobs[task])
    ensures BornOk(Serve(st.cloud, endpoint, request, id, size, late).0, st.jobs, st.made)
  {
    hide RowsOk, EachJobOk, TasksHaveJobs, BornOk, PlacementsOk, ReturnsOk, HandleOk, StraysOk, NameTaken, VolumeExists;
    var job := st.jobs[task];
    match request
    case CreateContainer(_) => CreateKeepsBorn(st.cloud, st.jobs, st.made, task, endpoint, id, late);
    case RemoveContainer(c) =>
      assert HoldsOk(job, st.cloud.born, st.jobs, st.made);
      RemoveKeepsBorn(st.cloud, st.jobs, st.made, c);
    case RunBackup(_, _, _) =>
      ObjectsKeepBorn(st.cloud, Serve(st.cloud, endpoint, request, id, size, late).0, st.jobs, st.made);
    case _ =>
  }

  lemma AttemptIsStray(job: Job, row: Option<TaskRow>, task: nat, jobs: map<nat, Job>)
    requires JobOk(job, row) && job.phase.Calling? && task in jobs && jobs[task] == job
    ensures StrayOk(Stray(task, job.phase.endpoint, job.phase.request), jobs)
    ensures job.phase.request.CreateContainer? ==> AsksForContainer(job)
  {
  }

  lemma AttemptKeepsBorn(st: State, task: nat, net: Net, id: nat, size: nat)
    requires MayAttempt(st, task, net, id) && Core(st) && Containers(st)
    ensures BornOk(CloudAfter(st.cloud, st.jobs[task], net, id, size), st.jobs, st.made)
  {
    hide Core, BornOk, HandlesOk, PlacementsOk, ReturnsOk, StraysOk, StrayOk, Serve;
    var job := st.jobs[task];
    JobOf(st, task);
    AttemptIsStray(job, Find(st.db.tasks, task), task, st.jobs);
    ServeKeepsBorn(st, task, job.phase.endpoint, job.phase.request, id, size, false);
  }

  lemma ObjectsKeepBorn(cloud: Cloud, after: Cloud, jobs: map<nat, Job>, made: map<nat, nat>)
    requires BornOk(cloud, jobs, made) && after.born == cloud.born && after.live == cloud.live
    ensures BornOk(after, jobs, made)
  {
  }

  /** Containers are only ever added to `born`, and only a fresh one to `live`. */
  ghost predicate Grows(cloud: Cloud, after: Cloud, id: nat) {
    && (forall c :: c in cloud.born ==> c in after.born && after.born[c] == cloud.born[c])
    && after.live <= cloud.live + {id}
  }

  lemma ServeGrows(cloud: Cloud, endpoint: nat, request: Request, id: nat, size: nat, late: bool)
    requires id !in cloud.born
    ensures Grows(cloud, Serve(cloud, endpoint, request, id, size, late).0, id)
  {
  }

  lemma CloudGrows(cloud: Cloud, job: Job, net: Net, id: nat, size: nat)
    requires job.phase.Calling? && id !in cloud.born
    ensures Grows(cloud, CloudAfter(cloud, job, net, id, size), id)
  {
    hide Serve;
    ServeGrows(cloud, job.phase.endpoint, job.phase.request, id, size, false);
  }

  lemma AttemptHandle(st: State, task: nat, net: Net, id: nat, size: nat)
    requires MayAttempt(st, task, net, id) && Core(st) && Containers(st)
    ensures HandleOk(JobAfter(st.cloud, st.jobs[task], net, id, size),
                     CloudAfter(st.cloud, st.jobs[task], net, id, size).born, st.hosts)
  {
    hide RowsOk, EachJobOk, Histories, BornOk, PlacementsOk, ReturnsOk, LocalsOk, RowOk, NameTaken, VolumeExists,
      HoldsOk;
    var job := st.jobs[task];
    JobOf(st, task);
    assert HandleOk(job, st.cloud.born, st.hosts);
  }

  lemma AttemptReturn(st: State, task: nat, net: Net, id: nat, size: nat)
    requires MayAttempt(st, task, net, id) && Core(st) && Containers(st)
    ensures var job := JobAfter(st.cloud, st.jobs[task], net, id, size);
      job.server.Some? && job.server.value in st.db.servers ==>
        ReturnOk(job, st.db.servers[job.server.value], CloudAfter(st.cloud, st.jobs[task], net, id, size).live,
                 CloudAfter(st.cloud, st.jobs[task], net, id, size).born)
  {
    hide RowsOk, EachJobOk, Histories, TasksHaveJobs, BornOk, PlacementsOk, StraysOk, ReturnOk, PhaseOk, Serve, Seen,
      React;
    var job := st.jobs[task];
    JobOf(st, task);
    PhaseOf(job, Find(st.db.tasks, task));
    SameLocals(job, Seen(net, Serve(st.cloud, job.phase.endpoint, job.phase.request, id, size, false).1));
    if job.server.Some? && job.server.value in st.db.servers {
      assert ReturnOk(job, st.db.servers[job.server.value], st.cloud.live, st.cloud.born);
      ServedReturn(job, st.db.servers[job.server.value], st.cloud, net, id, size);
    }
  }

  lemma ServedReturn(job: Job, row: ServerRow, cloud: Cloud, net: Net, id: nat, size: nat)
    requires job.phase.Calling? && PhaseOk(job) && ReturnOk(job, row, cloud.live, cloud.born) && id !in cloud.born
    requires PossibleNet(net)
    requires job.kind.Delete? && job.container.Some? ==> job.container.value in cloud.born
    ensures ReturnOk(JobAfter(cloud, job, net, id, size), row, CloudAfter(cloud, job, net, id, size).live,
                     CloudAfter(cloud, job, net, id, size).born)
  {
    hide NameTaken, VolumeExists;
  }

  lemma CloudKeepsReturns(jobs: map<nat, Job>, servers: map<nat, ServerRow>, cloud: Cloud, after: Cloud, id: nat,
                          made: map<nat, nat>)
    requires ReturnsOk(jobs, servers, cloud) && id !in cloud.born && Grows(cloud, after, id)
    requires forall t :: t in jobs ==> HoldsOk(jobs[t], cloud.born, jobs, made)
    ensures ReturnsOk(jobs, servers, after)
  {
    forall t | t in jobs && jobs[t].server.Some? && jobs[t].server.value in servers
      ensures ReturnOk(jobs[t], servers[jobs[t].server.value], after.live, after.born)
    {
      assert ReturnOk(jobs[t], servers[jobs[t].server.value], cloud.live, cloud.born);
      assert HoldsOk(jobs[t], cloud.born, jobs, made);
    }
  }

  lemma MoreBorn(jobs: map<nat, Job>, servers: map<nat, ServerRow>, born: map<nat, Container>,
                 after: map<nat, Container>, hosts: map<nat, Option<nat>>, made: map<nat, nat>)
    requires forall c :: c in born ==> c in after && after[c] == born[c]
    ensures HandlesOk(jobs, born, hosts, made) ==> HandlesOk(jobs, after, hosts, made)
    ensures PlacementsOk(servers, born, hosts, jobs, made) ==> PlacementsOk(servers, after, hosts, jobs, made)
  {
    if HandlesOk(jobs, born, hosts, made) {
      forall t | t in jobs ensures HandleOk(jobs[t], after, hosts) && HoldsOk(jobs[t], after, jobs, made) {
        assert HandleOk(jobs[t], born, hosts) && HoldsOk(jobs[t], born, jobs, made);
      }
    }
    if PlacementsOk(servers, born, hosts, jobs, made) {
      forall s | s in servers ensures PlacementOk(servers[s], s, after, hosts) {
        assert PlacementOk(servers[s], s, born, hosts);
      }
    }
  }

  lemma AttemptKeepsContainers(st: State, task: nat, net: Net, id: nat, size: nat)
    requires MayAttempt(st, task, net, id) && Core(st) && Containers(st)
    ensures Containers(Deliver(st, task, net, id, size))
  {
    hide RowsOk, BornOk, ReturnsOk, PlacementsOk, Steady, HandleOk, HoldsOk, EachJobOk, TasksHaveJobs, Histories,
      Serve, React, Seen, JobOk, PhaseOk, StraysOk, Grows, LeftBehind;
    var job := st.jobs[task];
    var after := CloudAfter(st.cloud, job, net, id, size);
    var job' := JobAfter(st.cloud, job, net, id, size);
    var jobs' := st.jobs[task := job'];
    assert Deliver(st, task, net, id, size) ==
      st.(cloud := after, strays := st.strays + LeftBehind(task, job, net), jobs := jobs');
    JobOf(st, task);
    PhaseOf(job, Find(st.db.tasks, task));
    ReactSteady(job, Seen(net, Serve(st.cloud, job.phase.endpoint, job.phase.request, id, size, false).1));
    CloudGrows(st.cloud, job, net, id, size);
    AttemptKeepsBorn(st, task, net, id, size);
    BornOkAfter(after, st.jobs, st.made, task, job');
    AllBorn(st.cloud, after, id);
    MoreBorn(st.jobs, st.db.servers, st.cloud.born, after.born, st.hosts, st.made);
    PlacementsOkAfter(st.db.servers, after.born, st.hosts, st.jobs, st.made, task, job');
    AttemptHandle(st, task, net, id, size);
    SameLocals(job, Seen(net, Serve(st.cloud, job.phase.endpoint, job.phase.request, id, size, false).1));
    assert HoldsOk(job, after.born, st.jobs, st.made);
    SameHold(job, job', after.born, st.jobs, st.made);
    HandlesOkAfter(st.jobs, after.born, st.hosts, st.made, task, job');
    CloudKeepsReturns(st.jobs, st.db.servers, st.cloud, after, id, st.made);
    AttemptReturn(st, task, net, id, size);
    ReturnsAfterJob(st.jobs, st.db.servers, after, task, job');
    MoreStrays(st.strays, st.jobs, task, Find(st.db.tasks, task), net);
    StraysOkAfter(st.strays + LeftBehind(task, job, net), st.jobs, task, job');
  }

  lemma PhaseOf(job: Job, row: Option<TaskRow>)
    requires JobOk(job, row)
    ensures PhaseOk(job)
  {
  }

  lemma MoreStrays(strays: set<Stray>, jobs: map<nat, Job>, task: nat, row: Option<TaskRow>, net: Net)
    requires StraysOk(strays, jobs) && task in jobs && JobOk(jobs[task], row) && jobs[task].phase.Calling?
    ensures StraysOk(strays + LeftBehind(task, jobs[task], net), jobs)
  {
    hide JobOk, StrayOk;
    AttemptIsStray(jobs[task], row, task, jobs);
  }

  /** A request carried out late changes no job and no row. */
  lemma LateKeepsContainers(st: State, stray: Stray, id: nat, size: nat)
    requires Core(st) && Containers(st) && Enabled(st, Late(stray, id, size))
    ensures Containers(Apply(st, Late(stray, id, size)))
  {
    hide Core, BornOk, ReturnsOk, PlacementsOk, HandleOk, HoldsOk, StrayOk, Serve, Grows;
    var after := Serve(st.cloud, stray.endpoint, stray.request, id, size, true).0;
    ServeKeepsBorn(st, stray.task, stray.endpoint, stray.request, id, size, true);
    ServeGrows(st.cloud, stray.endpoint, stray.request, id, size, true);
    AllBorn(st.cloud, after, id);
    MoreBorn(st.jobs, st.db.servers, st.cloud.born, after.born, st.hosts, st.made);
    CloudKeepsReturns(st.jobs, st.db.servers, st.cloud, after, id, st.made);
  }

  lemma AllBorn(cloud: Cloud, after: Cloud, id: nat)
    requires Grows(cloud, after, id)
    ensures forall c :: c in cloud.born ==> c in after.born && after.born[c] == cloud.born[c]
  {
  }

  lemma SameLocals(job: Job, outcome: Outcome)
    requires job.phase.Calling?
    ensures React(job, outcome).container == job.container && React(job, outcome).server == job.server
    ensures SameJob(job, React(job, outcome))
  {
  }

  lemma SameHold(job: Job, after: Job, born: map<nat, Container>, jobs: map<nat, Job>, made: map<nat, nat>)
    requires HoldsOk(job, born, jobs, made) && SameJob(job, after) && after.container == job.container
    ensures HoldsOk(after, born, jobs, made)
  {
  }

  // ----- API requests and node administration

  lemma CommitKeepsContainers(st: State, task: nat, owner: nat, resources: Resources)
    requires Core(st) && Containers(st) && Enabled(st, Commit(task, owner, resources))
    ensures Containers(Apply(st, Commit(task, owner, resources)))
  {
    hide RowsOk, BornOk, HandlesOk, PlacementsOk, ReturnsOk, EachJobOk, TasksHaveJobs, Histories, PlacementOk, ReturnOk;
    var job := st.jobs[task];
    var after := Committed(st.db, task, job, owner, resources);
    if job.kind.Provision? {
      var row := ServerRow(owner, ServerStatus.Pending, None, None, resources);
      assert after.servers == st.db.servers[job.origin.server := row];
      NewServer(st, task, row);
    } else {
      CommitServers(st.db, task, job, owner, resources);
      if after.servers != st.db.servers {
        StatusKeepsPlacements(st.db, Some(job.origin.server), ServerStatus.Deleting, st.cloud.born, st.hosts,
          st.jobs, st.made);
      }
      ReturnsAfterServers(st.jobs, st.db.servers, after.servers, st.cloud);
    }
  }

  lemma CommitServers(db: Db, task: nat, job: Job, owner: nat, resources: Resources)
    requires !job.kind.Provision?
    ensures var after := Committed(db, task, job, owner, resources).servers;
      after == db.servers || after == SetStatus(db, Some(job.origin.server), ServerStatus.Deleting).servers
  {
  }

  /** No container and no job refers to a server that is only now created. */
  lemma NewServer(st: State, task: nat, row: ServerRow)
    requires Core(st) && Containers(st) && task in st.jobs && task !in st.db.tasks && st.jobs[task].kind.Provision?
    requires row.container.None? && row.node.None? && row.status.Pending?
    ensures var servers := st.db.servers[st.jobs[task].origin.server := row];
      && PlacementsOk(servers, st.cloud.born, st.hosts, st.jobs, st.made)
      && ReturnsOk(st.jobs, servers, st.cloud)
  {
    hide BornOk, HandlesOk, ServerKeys, TaskKeys, BackupKeys, RestoreKeys, RowOk, PhaseOk;
    var server := st.jobs[task].origin.server;
    var servers := st.db.servers[server := row];
    forall s | s in servers ensures PlacementOk(servers[s], s, st.cloud.born, st.hosts) {
      if s != server { assert PlacementOk(st.db.servers[s], s, st.cloud.born, st.hosts); }
    }
    forall t | t in st.jobs && st.jobs[t].server.Some? && st.jobs[t].server.value in servers
      ensures ReturnOk(st.jobs[t], servers[st.jobs[t].server.value], st.cloud.live, st.cloud.born)
    {
      JobOf(st, t);
      assert st.jobs[t].server.value != server;
      assert ReturnOk(st.jobs[t], st.db.servers[st.jobs[t].server.value], st.cloud.live, st.cloud.born);
    }
  }

  lemma EnqueueKeepsContainers(st: State, task: nat, kind: Kind, origin: Origin)
    requires Core(st) && Containers(st) && Enabled(st, Enqueue(task, kind, origin))
    ensures Containers(Enqueued(st, task, kind, origin))
  {
    hide RowsOk, EachJobOk, TasksHaveJobs, PlacementOk, ReturnOk;
    var after := Enqueued(st, task, kind, origin);
    EnqueueKeepsBorn(st.cloud, st.jobs, st.made, task, NewJob(kind, origin), after.made);
    EnqueueKeepsHandles(st.jobs, st.cloud.born, st.hosts, st.made, task, NewJob(kind, origin), after.made);
    EnqueueKeepsPlacements(st.db.servers, st.cloud.born, st.hosts, st.jobs, st.made, task, NewJob(kind, origin),
      after.made);
    ReturnsAfterJob(st.jobs, st.db.servers, st.cloud, task, NewJob(kind, origin));
    EnqueueKeepsStrays(st.strays, st.jobs, task, NewJob(kind, origin));
  }

  lemma EnqueueKeepsStrays(strays: set<Stray>, jobs: map<nat, Job>, task: nat, job: Job)
    requires StraysOk(strays, jobs) && task !in jobs
    ensures StraysOk(strays, jobs[task := job])
  {
  }

  predicate Extends(made: map<nat, nat>, after: map<nat, nat>) {
    forall s :: s in made ==> s in after && after[s] == made[s]
  }

  lemma EnqueueKeepsBorn(cloud: Cloud, jobs: map<nat, Job>, made: map<nat, nat>, task: nat, job: Job, made': map<nat,
                         nat>)
    requires BornOk(cloud, jobs, made) && task !in jobs && Extends(made, made')
    ensures BornOk(cloud, jobs[task := job], made')
  {
  }

  lemma EnqueueKeepsHandles(jobs: map<nat, Job>, born: map<nat, Container>, hosts: map<nat, Option<nat>>,
                            made: map<nat, nat>, task: nat, job: Job, made': map<nat, nat>)
    requires HandlesOk(jobs, born, hosts, made) && task !in jobs && Extends(made, made')
    requires job.phase.Queued? && job.container.None? && job.agent.None?
    ensures HandlesOk(jobs[task := job], born, hosts, made')
  {
    hide HandleOk;
    forall t | t in jobs ensures HandleOk(jobs[t], born, hosts) && HoldsOk(jobs[t], born, jobs[task := job], made') {
      assert HoldsOk(jobs[t], born, jobs, made);
    }
    assert HandleOk(job, born, hosts) by { QueuedHandle(job, born, hosts); }
  }

  lemma QueuedHandle(job: Job, born: map<nat, Container>, hosts: map<nat, Option<nat>>)
    requires job.phase.Queued? && job.agent.None?
    ensures HandleOk(job, born, hosts)
  {
  }

  lemma EnqueueKeepsPlacements(servers: map<nat, ServerRow>, born: map<nat, Container>, hosts: map<nat, Option<nat>>,
                               jobs: map<nat, Job>, made: map<nat, nat>, task: nat, job: Job, made': map<nat, nat>)
    requires PlacementsOk(servers, born, hosts, jobs, made) && task !in jobs && Extends(made, made')
    ensures PlacementsOk(servers, born, hosts, jobs[task := job], made')
  {
    hide PlacementOk;
  }

  /** Nodes are added, or their endpoint is patched. */
  lemma MoreHosts(jobs: map<nat, Job>, servers: map<nat, ServerRow>, born: map<nat, Container>,
                  hosts: map<nat, Option<nat>>, after: map<nat, Option<nat>>, made: map<nat, nat>)
    requires forall n :: n in hosts ==> n in after && (after[n] == hosts[n] || after[n].None?)
    ensures HandlesOk(jobs, born, hosts, made) ==> HandlesOk(jobs, born, after, made)
    ensures PlacementsOk(servers, born, hosts, jobs, made) ==> PlacementsOk(servers, born, after, jobs, made)
  {
    if HandlesOk(jobs, born, hosts, made) {
      forall t | t in jobs ensures HandleOk(jobs[t], born, after) {
        assert HandleOk(jobs[t], born, hosts);
      }
    }
    if PlacementsOk(servers, born, hosts, jobs, made) {
      forall s | s in servers ensures PlacementOk(servers[s], s, born, after) {
        assert PlacementOk(servers[s], s, born, hosts);
      }
    }
  }

  /** Patching resources and unplacing a server keep its container. */
  lemma LessPlaced(st: State, servers: map<nat, ServerRow>)
    requires Containers(st) && servers.Keys == st.db.servers.Keys
    requires forall s :: s in servers ==>
      && servers[s].container == st.db.servers[s].container && servers[s].status == st.db.servers[s].status
      && (servers[s].node == st.db.servers[s].node || servers[s].node.None?)
    ensures PlacementsOk(servers, st.cloud.born, st.hosts, st.jobs, st.made)
    ensures ReturnsOk(st.jobs, servers, st.cloud)
  {
    hide BornOk, HandlesOk;
    forall s | s in servers ensures PlacementOk(servers[s], s, st.cloud.born, st.hosts) {
      assert PlacementOk(st.db.servers[s], s, st.cloud.born, st.hosts);
    }
    ReturnsAfterServers(st.jobs, st.db.servers, servers, st.cloud);
  }

  lemma StepKeepsContainers(st: State, step: Step)
    requires Core(st) && Containers(st) && Enabled(st, step)
    ensures Containers(Apply(st, step))
  {
    hide Core, BornOk, HandlesOk, PlacementsOk, ReturnsOk, StraysOk, Deliver, NextTx, Committed, SelectorMayReturn,
      Serve;
    match step
    case Enqueue(task, kind, origin) => EnqueueKeepsContainers(st, task, kind, origin);
    case Commit(task, owner, resources) => CommitKeepsContainers(st, task, owner, resources);
    case Patch(server, resources) => LessPlaced(st, PatchServer(st.db, server, resources).servers);
    case AddNode(node, row) =>
      MoreHosts(st.jobs, st.db.servers, st.cloud.born, st.hosts, st.hosts[node := Some(row.endpoint)], st.made);
    case RemoveNode(node) => LessPlaced(st, DeleteNode(st.db, node).servers);
    case PatchNode(node, _, _, _) =>
      MoreHosts(st.jobs, st.db.servers, st.cloud.born, st.hosts, Apply(st, step).hosts, st.made);
    case Late(stray, id, size) => LateKeepsContainers(st, stray, id, size);
    case Transact(task, choice, silent) => TransactKeepsContainers(st, task, choice, silent);
    case Attempt(task, net, id, size) => AttemptKeepsContainers(st, task, net, id, size);
    case Throw(task) => ThrowKeepsContainers(st, task);
  }
}
