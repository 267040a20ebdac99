/** How far concurrent provisions can over-commit a node. A server counts towards its node only
    once its placement is recorded, so provisions in flight do not see one another. */
module Capacity {
  import opened Wrappers
  import opened Rows
  import opened Repositories
  import opened Sums
  import opened NodeSelector
  import opened Agent
  import opened NodeAgentClient
  import opened Jobs
  import opened Protocol
  import opened JobInvariant
  import opened CoreInvariant
  import opened ContainerInvariant
  import opened ContainerSteps

  /** The provision job has chosen a node and not yet recorded or given up the placement. */
  predicate InFlight(job: Job) {
    job.kind.Provision? && (job.phase.Calling? || job.phase.Placing?)
  }

  predicate InFlightOn(job: Job, node: nat) {
    InFlight(job) && job.phase.node == node
  }

  function Provisions(jobs: map<nat, Job>): set<nat> {
    set t | t in jobs && InFlight(jobs[t])
  }

  ghost function AskedOn(jobs: map<nat, Job>, node: nat): map<nat, Resources> {
    map t | t in jobs && InFlightOn(jobs[t], node) :: jobs[t].ask
  }

  /** What runs on a node and what is in flight for it. */
  ghost function Load(servers: map<nat, ServerRow>, jobs: map<nat, Job>, node: nat): Resources {
    Plus(UsedOn(servers, node), Total(AskedOn(jobs, node)))
  }

  ghost predicate AsksOk(servers: map<nat, ServerRow>, jobs: map<nat, Job>) {
    && (forall s :: s in servers ==> NonNegative(servers[s].resources))
    && (forall t :: t in jobs && InFlight(jobs[t]) ==>
          && NonNegative(jobs[t].ask)
          && (jobs[t].origin.server in servers ==> servers[jobs[t].origin.server].resources == jobs[t].ask))
  }

  /** capacity + (k - 1) * r */
  function Ceiling(capacity: Resources, k: nat, r: Resources): Resources
    requires k >= 1
  {
    Plus(capacity, Times(k - 1, r))
  }

  ghost predicate WithinCeiling(st: State, k: nat, r: Resources)
    requires k >= 1
  {
    forall n :: n in st.db.nodes ==>
      AtMost(Load(st.db.servers, st.jobs, n), Ceiling(st.db.nodes[n].capacity, k, r))
  }

  /** At most k provisions in flight, each asking for at most r. */
  ghost predicate Bounded(st: State, k: nat, r: Resources) {
    && |Provisions(st.jobs)| <= k
    && forall t :: t in st.jobs && InFlight(st.jobs[t]) ==> AtMost(st.jobs[t].ask, r)
  }

  /** The last transaction of a start or a restart sets `running` without asking for capacity.
      It adds to the load of a node when the server there is not counted at that moment. */
  predicate Revives(st: State, step: Step) {
    && step.Transact? && step.task in st.jobs
    && st.jobs[step.task].phase.Closing? && (st.jobs[step.task].kind.Start? || st.jobs[step.task].kind.Restart?)
    && st.jobs[step.task].server.Some? && st.jobs[step.task].server.value in st.db.servers
    && var row := st.db.servers[st.jobs[step.task].server.value];
       row.node.Some? && !Counted(row, row.node.value)
  }

  /** The guard the source does not have: a start that revives a server finds room for it, and a
      patch leaves a node the capacity for what it carries. */
  ghost predicate Affordable(st: State, step: Step, k: nat, r: Resources)
    requires k >= 1
  {
    && (Revives(st, step) ==>
          var row := st.db.servers[st.jobs[step.task].server.value];
          row.node.value in st.db.nodes ==>
            AtMost(Plus(row.resources, Load(st.db.servers, st.jobs, row.node.value)),
                   Ceiling(st.db.nodes[row.node.value].capacity, k, r)))
    && (step.PatchNode? ==>
          AtMost(Load(st.db.servers, st.jobs, step.node), Ceiling(step.capacity, k, r)))
  }

  // ----- sums that change by one entry

  lemma LessUsed(servers: map<nat, ServerRow>, after: map<nat, ServerRow>, node: nat)
    requires forall s :: s in servers ==> NonNegative(servers[s].resources)
    requires forall s :: s in after && Counted(after[s], node) ==>
      s in servers && Counted(servers[s], node) && after[s].resources == servers[s].resources
    ensures AtMost(UsedOn(after, node), UsedOn(servers, node))
  {
    TotalMonotone(CountedOn(after, node), CountedOn(servers, node));
  }

  lemma LessAsked(jobs: map<nat, Job>, after: map<nat, Job>, node: nat)
    requires forall t :: t in jobs && InFlight(jobs[t]) ==> NonNegative(jobs[t].ask)
    requires forall t :: t in after && InFlightOn(after[t], node) ==>
      t in jobs && InFlightOn(jobs[t], node) && after[t].ask == jobs[t].ask
    ensures AtMost(Total(AskedOn(after, node)), Total(AskedOn(jobs, node)))
  {
    TotalMonotone(AskedOn(after, node), AskedOn(jobs, node));
  }

  /** A job that takes off adds what it asks for. */
  lemma MoreAsked(jobs: map<nat, Job>, task: nat, job: Job, node: nat)
    requires task in jobs && !InFlight(jobs[task]) && InFlightOn(job, node)
    ensures Total(AskedOn(jobs[task := job], node)) == Plus(job.ask, Total(AskedOn(jobs, node)))
  {
    assert AskedOn(jobs[task := job], node) == AskedOn(jobs, node)[task := job.ask];
    TotalSet(AskedOn(jobs, node), task, job.ask);
    assert AskedOn(jobs, node) - {task} == AskedOn(jobs, node);
  }

  /** A job that lands hands its resources over to the server it placed. */
  lemma Landed(jobs: map<nat, Job>, task: nat, job: Job, node: nat)
    requires task in jobs && InFlightOn(jobs[task], node) && !InFlight(job)
    ensures Plus(jobs[task].ask, Total(AskedOn(jobs[task := job], node))) == Total(AskedOn(jobs, node))
  {
    TotalSplit(AskedOn(jobs, node), task);
    assert AskedOn(jobs, node) - {task} == AskedOn(jobs[task := job], node);
  }

  lemma NewlyUsed(servers: map<nat, ServerRow>, server: nat, row: ServerRow, node: nat)
    requires server in servers && !Counted(servers[server], node) && Counted(row, node)
    ensures UsedOn(servers[server := row], node) == Plus(row.resources, UsedOn(servers, node))
  {
    assert CountedOn(servers[server := row], node) == CountedOn(servers, node)[server := row.resources];
    TotalSet(CountedOn(servers, node), server, row.resources);
    assert CountedOn(servers, node) - {server} == CountedOn(servers, node);
  }

  /** The other provisions in flight ask for at most (k - 1) * r together. */
  lemma OthersBounded(jobs: map<nat, Job>, task: nat, node: nat, k: nat, r: Resources)
    requires k >= 1 && task in jobs && InFlight(jobs[task]) && |Provisions(jobs)| <= k && AtMost(Nothing, r)
    requires forall t :: t in jobs && InFlight(jobs[t]) ==> AtMost(jobs[t].ask, r)
    ensures AtMost(Total(AskedOn(jobs, node) - {task}), Times(k - 1, r))
  {
    hide Total, Times;
    var others := AskedOn(jobs, node) - {task};
    OthersFew(jobs, task, node);
    TotalBounded(others, r);
    TimesMonotone(|others|, k - 1, r);
  }

  lemma OthersFew(jobs: map<nat, Job>, task: nat, node: nat)
    requires task in jobs && InFlight(jobs[task])
    ensures |AskedOn(jobs, node) - {task}| < |Provisions(jobs)|
  {
    var others := AskedOn(jobs, node) - {task};
    assert others.Keys <= Provisions(jobs) - {task};
    SubsetSize(others.Keys, Provisions(jobs) - {task});
    assert |others| == |others.Keys|;
  }

  lemma TimesMonotone(m: nat, n: nat, r: Resources)
    requires m <= n && AtMost(Nothing, r)
    ensures AtMost(Times(m, r), Times(n, r))
  {
    assert (n - m) as real * r.cpu >= 0.0;
    assert n as real * r.cpu == m as real * r.cpu + (n - m) as real * r.cpu by {
      assert n as real == m as real + (n - m) as real;
    }
    assert (n - m) * r.mem >= 0;
    assert n * r.mem == m * r.mem + (n - m) * r.mem;
  }

  // ----- what a provision in flight asks for is what its server row says

  ghost predicate RowResourcesKept(db: Db, after: map<nat, ServerRow>) {
    forall s :: s in after ==> s in db.servers && after[s].resources == db.servers[s].resources
  }

  lemma TxResources(db: Db, task: nat, job: Job, choice: Option<nat>, silent: bool)
    requires !job.phase.Calling? && !job.phase.Ended?
    ensures RowResourcesKept(db, NextTx(db, task, job, choice, silent).db.servers)
  {
    hide NextTx;
    TxServers(db, task, job, choice, silent);
  }

  lemma TxTakesOff(db: Db, task: nat, job: Job, choice: Option<nat>, silent: bool)
    requires JobOk(job, Find(db.tasks, task)) && !job.phase.Calling? && !job.phase.Ended?
    ensures var tx := NextTx(db, task, job, choice, silent);
      InFlight(tx.job) ==>
        && job.phase.Marked? && choice.Some? && choice.value in db.nodes && tx.job.phase.node == choice.value
        && job.origin.server in db.servers && tx.job.ask == db.servers[job.origin.server].resources
        && task in db.tasks && db.tasks[task].server == Some(job.origin.server)
        && tx.db.servers == SetStatus(db, Some(job.origin.server), ServerStatus.Provisioning).servers
  {
    match job.phase
    case Queued =>
      match job.kind {
        case Provision =>
        case Delete =>
        case Backup =>
        case Restore =>
        case _ =>
      }
    case _ =>
  }

  lemma TransactKeepsAsks(st: State, task: nat, choice: Option<nat>, silent: bool)
    requires MayTransact(st, task) && Core(st) && AsksOk(st.db.servers, st.jobs)
    ensures var tx := NextTx(st.db, task, st.jobs[task], choice, silent);
      AsksOk(tx.db.servers, st.jobs[task := tx.job])
  {
    hide NextTx, SelectorMayReturn, RowsOk, EachJobOk, Histories, HostsOk, TasksHaveJobs, JobOk;
    JobOf(st, task);
    TxKeepsJob(st.db, st.jobs, st.made, st.ordered, task, choice, silent);
    TxResources(st.db, task, st.jobs[task], choice, silent);
    TxTakesOff(st.db, task, st.jobs[task], choice, silent);
  }

  lemma AttemptFlight(job: Job, outcome: Outcome)
    requires job.phase.Calling?
    ensures var after := React(job, outcome);
      && SameJob(job, after) && after.ask == job.ask
      && (InFlight(after) ==> InFlight(job) && after.phase.node == job.phase.node)
  {
  }

  lemma AttemptKeepsAsks(st: State, task: nat, net: Net, id: nat, size: nat)
    requires MayAttempt(st, task, net, id) && AsksOk(st.db.servers, st.jobs)
    ensures Deliver(st, task, net, id, size).db == st.db
    ensures AsksOk(st.db.servers, Deliver(st, task, net, id, size).jobs)
  {
    hide Serve, React, Seen;
    var job := st.jobs[task];
    AttemptFlight(job, Seen(net, Serve(st.cloud, job.phase.endpoint, job.phase.request, id, size, false).1));
  }

  /** Patching needs a stopped server, and that one's provision is over. */
  lemma PatchKeepsAsks(st: State, server: nat, resources: Resources)
    requires Core(st) && Containers(st) && AsksOk(st.db.servers, st.jobs) && Enabled(st, Patch(server, resources))
    ensures AsksOk(PatchServer(st.db, server, resources).servers, st.jobs)
  {
    hide EachJobOk, HostsOk, TasksHaveJobs, RowsOk, BornOk, HandlesOk, ReturnsOk;
    assert PlacementOk(st.db.servers[server], server, st.cloud.born, st.hosts);
  }

  lemma CommitKeepsAsks(st: State, task: nat, owner: nat, resources: Resources)
    requires Core(st) && AsksOk(st.db.servers, st.jobs) && Enabled(st, Commit(task, owner, resources))
    ensures AsksOk(Committed(st.db, task, st.jobs[task], owner, resources).servers, st.jobs)
  {
    hide EachJobOk, HostsOk, RowsOk, MayCommit, Committed, JobOk;
    var job := st.jobs[task];
    var after := Committed(st.db, task, job, owner, resources).servers;
    if job.kind.Provision? {
      CreatedServers(st.db, task, job, owner, resources);
      forall t | t in st.jobs && InFlight(st.jobs[t]) ensures st.jobs[t].origin.server != job.origin.server {
        JobOf(st, t);
        JobOf(st, task);
        FlightHasRow(st.jobs[t], Find(st.db.tasks, t));
      }
    } else {
      CommitServers(st.db, task, job, owner, resources);
    }
  }

  lemma FlightHasRow(job: Job, row: Option<TaskRow>)
    requires JobOk(job, row) && InFlight(job)
    ensures row.Some?
  {
  }

  lemma CreatedServers(db: Db, task: nat, job: Job, owner: nat, resources: Resources)
    requires job.kind.Provision?
    ensures Committed(db, task, job, owner, resources).servers ==
      db.servers[job.origin.server := ServerRow(owner, ServerStatus.Pending, None, None, resources)]
  {
  }

  lemma StepKeepsAsks(st: State, step: Step)
    requires Core(st) && Containers(st) && AsksOk(st.db.servers, st.jobs) && Enabled(st, step)
    ensures AsksOk(Apply(st, step).db.servers, Apply(st, step).jobs)
  {
    hide Core, Containers, Deliver, NextTx, Committed, SelectorMayReturn;
    match step
    case Enqueue(task, kind, origin) =>
    case Commit(task, owner, resources) => CommitKeepsAsks(st, task, owner, resources);
    case Patch(server, resources) => PatchKeepsAsks(st, server, resources);
    case Transact(task, choice, silent) => TransactKeepsAsks(st, task, choice, silent);
    case Attempt(task, net, id, size) => AttemptKeepsAsks(st, task, net, id, size);
    case _ =>
  }

  // ----- the ceiling

  ghost predicate Fair(st: State, k: nat, r: Resources) {
    && k >= 1 && AtMost(Nothing, r)
    && Core(st) && Containers(st) && AsksOk(st.db.servers, st.jobs) && WithinCeiling(st, k, r)
  }

  /** Each node's load only shrinks. */
  lemma LoadShrinks(st: State, after: State, k: nat, r: Resources)
    requires Fair(st, k, r)
    requires forall n :: n in after.db.nodes ==>
      && n in st.db.nodes && AtMost(st.db.nodes[n].capacity, after.db.nodes[n].capacity)
      && AtMost(Load(after.db.servers, after.jobs, n), Load(st.db.servers, st.jobs, n))
    ensures WithinCeiling(after, k, r)
  {
    hide Core, Containers, AsksOk, Load, Times;
  }

  /** Neither the servers counted on a node nor the provisions in flight for it grow. */
  ghost predicate NoNewLoad(servers: map<nat, ServerRow>, jobs: map<nat, Job>, servers': map<nat, ServerRow>,
                            jobs': map<nat, Job>, node: nat)
  {
    && (forall s :: s in servers' && Counted(servers'[s], node) ==>
          s in servers && Counted(servers[s], node) && servers'[s].resources == servers[s].resources)
    && (forall t :: t in jobs' && InFlightOn(jobs'[t], node) ==>
          t in jobs && InFlightOn(jobs[t], node) && jobs'[t].ask == jobs[t].ask)
  }

  lemma NoNewLoadShrinks(servers: map<nat, ServerRow>, jobs: map<nat, Job>, servers': map<nat, ServerRow>,
                         jobs': map<nat, Job>, node: nat)
    requires AsksOk(servers, jobs) && NoNewLoad(servers, jobs, servers', jobs', node)
    ensures AtMost(Load(servers', jobs', node), Load(servers, jobs, node))
  {
    hide UsedOn;
    LessUsed(servers, servers', node);
    LessAsked(jobs, jobs', node);
  }

  /** The server a job in flight works for is counted nowhere yet. */
  lemma NotYetPlaced(st: State, task: nat)
    requires Core(st) && Containers(st) && task in st.jobs && st.jobs[task].kind.Provision?
    requires !Settled(st.jobs[task]) && st.jobs[task].origin.server in st.db.servers
    ensures st.db.servers[st.jobs[task].origin.server].container.None?
    ensures st.db.servers[st.jobs[task].origin.server].node.None?
  {
    hide EachJobOk, TasksHaveJobs, RowsOk, HostsOk, BornOk, HandlesOk, ReturnsOk;
    assert PlacementOk(st.db.servers[st.jobs[task].origin.server], st.jobs[task].origin.server, st.cloud.born,
      st.hosts);
  }

  /** Choosing a node: what it runs plus the request fits, whatever else is in flight for it. */
  lemma SelectWithinCeiling(st: State, task: nat, choice: Option<nat>, silent: bool, k: nat, r: Resources)
    requires MayTransact(st, task) && Fair(st, k, r) && SelectorMayReturn(st.db, task, choice)
    requires var tx := NextTx(st.db, task, st.jobs[task], choice, silent);
      InFlight(tx.job) && Bounded(Run(st, task, tx), k, r)
    ensures WithinCeiling(Run(st, task, NextTx(st.db, task, st.jobs[task], choice, silent)), k, r)
  {
    hide NextTx, EachJobOk, TasksHaveJobs, RowsOk, Histories, HostsOk, BornOk, HandlesOk, ReturnsOk, PlacementsOk,
      JobOk,
      UsedOn, AskedOn, Times;
    var job := st.jobs[task];
    var tx := NextTx(st.db, task, job, choice, silent);
    var jobs := st.jobs[task := tx.job];
    JobOf(st, task);
    TxTakesOff(st.db, task, job, choice, silent);
    TxKeepsNodes(st.db, task, job, choice, silent);
    SelectJob(job, Find(st.db.tasks, task));
    NotYetPlaced(st, task);
    forall n | n in st.db.nodes
      ensures AtMost(Load(tx.db.servers, jobs, n), Ceiling(st.db.nodes[n].capacity, k, r))
    {
      SameCounted(st.db, job.origin.server, n);
      if n == choice.value {
        MoreAsked(st.jobs, task, tx.job, n);
        OthersBounded(jobs, task, n, k, r);
        OtherAsked(st.jobs, task, tx.job, n);
      } else {
        OtherNode(st.jobs, task, tx.job, n);
      }
    }
  }

  lemma SelectJob(job: Job, row: Option<TaskRow>)
    requires JobOk(job, row) && job.phase.Marked?
    ensures job.kind.Provision? && !InFlight(job) && !Settled(job)
  {
  }

  lemma SameCounted(db: Db, server: nat, node: nat)
    requires server in db.servers && db.servers[server].node.None?
    ensures UsedOn(SetStatus(db, Some(server), ServerStatus.Provisioning).servers, node) == UsedOn(db.servers, node)
  {
    assert CountedOn(SetStatus(db, Some(server), ServerStatus.Provisioning).servers, node) == CountedOn(db.servers,
      node);
  }

  lemma OtherAsked(jobs: map<nat, Job>, task: nat, job: Job, node: nat)
    requires task in jobs && !InFlight(jobs[task]) && InFlightOn(job, node)
    ensures AskedOn(jobs[task := job], node) - {task} == AskedOn(jobs, node)
  {
  }

  lemma OtherNode(jobs: map<nat, Job>, task: nat, job: Job, node: nat)
    requires task in jobs && !InFlightOn(jobs[task], node) && !InFlightOn(job, node)
    ensures AskedOn(jobs[task := job], node) == AskedOn(jobs, node)
  {
  }

  /** Recording a placement turns what was in flight into what runs. */
  lemma PlaceWithinCeiling(st: State, task: nat, choice: Option<nat>, silent: bool, k: nat, r: Resources)
    requires MayTransact(st, task) && Fair(st, k, r) && st.jobs[task].phase.Placing?
    requires NextTx(st.db, task, st.jobs[task], choice, silent).db.servers != st.db.servers
    ensures WithinCeiling(Run(st, task, NextTx(st.db, task, st.jobs[task], choice, silent)), k, r)
  {
    hide NextTx, EachJobOk, TasksHaveJobs, RowsOk, Histories, HostsOk, BornOk, HandlesOk, ReturnsOk, PlacementsOk,
      JobOk,
      UsedOn, AskedOn, Times, WithinCeiling, AsksOk, SetProvisioned;
    var job := st.jobs[task];
    var tx := NextTx(st.db, task, job, choice, silent);
    JobOf(st, task);
    TxServers(st.db, task, job, choice, silent);
    TxKeepsNodes(st.db, task, job, choice, silent);
    PlacingJob(job, Find(st.db.tasks, task));
    LandingJob(st.db, task, job, choice, silent);
    NotYetPlaced(st, task);
    AsksOne(st.db.servers, st.jobs, task);
    var server := job.server.value;
    var row := st.db.servers[server].(node := Some(job.phase.node), container := Some(job.phase.container),
                                      status := ServerStatus.Running);
    assert tx.db.servers == st.db.servers[server := row] by { ProvisionedRow(st.db, server, job.phase.node,
      job.phase.container); }
    forall n | n in st.db.nodes
      ensures AtMost(Load(tx.db.servers, st.jobs[task := tx.job], n), Load(st.db.servers, st.jobs, n))
    {
      if n == job.phase.node {
        NewlyUsed(st.db.servers, server, row, n);
        Landed(st.jobs, task, tx.job, n);
      } else {
        OtherNode(st.jobs, task, tx.job, n);
        assert UsedOn(tx.db.servers, n) == UsedOn(st.db.servers, n) by {
          ElsewhereCounted(st.db.servers, server, row, n);
        }
      }
    }
    LoadShrinks(st, Run(st, task, tx), k, r);
  }

  lemma PlacingJob(job: Job, row: Option<TaskRow>)
    requires JobOk(job, row) && job.phase.Placing?
    ensures job.kind.Provision? && InFlight(job) && !Settled(job) && job.server == Some(job.origin.server)
  {
  }

  lemma LandingJob(db: Db, task: nat, job: Job, choice: Option<nat>, silent: bool)
    requires job.phase.Placing?
    ensures !InFlight(NextTx(db, task, job, choice, silent).job)
  {
  }

  lemma AsksOne(servers: map<nat, ServerRow>, jobs: map<nat, Job>, task: nat)
    requires AsksOk(servers, jobs) && task in jobs && InFlight(jobs[task]) && jobs[task].origin.server in servers
    ensures servers[jobs[task].origin.server].resources == jobs[task].ask
  {
  }

  lemma ProvisionedRow(db: Db, server: nat, node: nat, container: nat)
    requires server in db.servers
    ensures SetProvisioned(db, server, node, container).servers ==
      db.servers[server := db.servers[server].(node := Some(node), container := Some(container),
                                               status := ServerStatus.Running)]
  {
  }

  lemma ElsewhereCounted(servers: map<nat, ServerRow>, server: nat, row: ServerRow, node: nat)
    requires server in servers && !Counted(servers[server], node) && !Counted(row, node)
    ensures UsedOn(servers[server := row], node) == UsedOn(servers, node)
  {
    assert CountedOn(servers[server := row], node) == CountedOn(servers, node);
  }

  /** Any other transaction lets no load grow. */
  lemma QuietTransact(st: State, task: nat, choice: Option<nat>, silent: bool, node: nat)
    requires MayTransact(st, task) && Core(st) && !Revives(st, Transact(task, choice, silent))
    requires var tx := NextTx(st.db, task, st.jobs[task], choice, silent);
      !InFlight(tx.job) && (st.jobs[task].phase.Placing? ==> tx.db.servers == st.db.servers)
    ensures var tx := NextTx(st.db, task, st.jobs[task], choice, silent);
      NoNewLoad(st.db.servers, st.jobs, tx.db.servers, st.jobs[task := tx.job], node)
  {
    hide NextTx, SelectorMayReturn, EachJobOk, TasksHaveJobs, RowsOk, Histories, HostsOk, JobOk;
    var job := st.jobs[task];
    JobOf(st, task);
    TxServers(st.db, task, job, choice, silent);
    if job.phase.Marked? {
      SelectJob(job, Find(st.db.tasks, task));
      UnchosenServers(st.db, task, job, choice, silent);
    }
    if job.phase.Closing? { ClosingHasServer(job, Find(st.db.tasks, task)); }
  }

  lemma UnchosenServers(db: Db, task: nat, job: Job, choice: Option<nat>, silent: bool)
    requires job.phase.Marked? && job.kind.Provision? && !InFlight(NextTx(db, task, job, choice, silent).job)
    ensures NextTx(db, task, job, choice, silent).db.servers == db.servers
  {
  }

  lemma ClosingHasServer(job: Job, row: Option<TaskRow>)
    requires JobOk(job, row) && job.phase.Closing?
    ensures job.server.Some?
  {
  }

  lemma OnlyMarkedTakesOff(st: State, task: nat, choice: Option<nat>, silent: bool)
    requires MayTransact(st, task) && Core(st)
    requires InFlight(NextTx(st.db, task, st.jobs[task], choice, silent).job)
    ensures st.jobs[task].phase.Marked?
  {
    hide NextTx, Core, JobOk;
    JobOf(st, task);
    TxTakesOff(st.db, task, st.jobs[task], choice, silent);
  }

  lemma TransactWithinCeiling(st: State, task: nat, choice: Option<nat>, silent: bool, k: nat, r: Resources)
    requires MayTransact(st, task) && Fair(st, k, r) && !Revives(st, Transact(task, choice, silent))
    requires st.jobs[task].phase.Marked? ==> SelectorMayReturn(st.db, task, choice)
    requires Bounded(Run(st, task, NextTx(st.db, task, st.jobs[task], choice, silent)), k, r)
    ensures WithinCeiling(Run(st, task, NextTx(st.db, task, st.jobs[task], choice, silent)), k, r)
  {
    hide NextTx, SelectorMayReturn, Core, Containers, AsksOk, WithinCeiling, Bounded, Load, NoNewLoad, Revives,
      InFlight;
    var job := st.jobs[task];
    var tx := NextTx(st.db, task, job, choice, silent);
    if InFlight(tx.job) {
      OnlyMarkedTakesOff(st, task, choice, silent);
      SelectWithinCeiling(st, task, choice, silent, k, r);
    } else if job.phase.Placing? && tx.db.servers != st.db.servers {
      PlaceWithinCeiling(st, task, choice, silent, k, r);
    } else {
      TxKeepsNodes(st.db, task, job, choice, silent);
      forall n | n in st.db.nodes
        ensures AtMost(Load(tx.db.servers, st.jobs[task := tx.job], n), Load(st.db.servers, st.jobs, n))
      {
        QuietTransact(st, task, choice, silent, n);
        NoNewLoadShrinks(st.db.servers, st.jobs, tx.db.servers, st.jobs[task := tx.job], n);
      }
      LoadShrinks(st, Run(st, task, tx), k, r);
    }
  }

  lemma AttemptQuiet(st: State, task: nat, net: Net, id: nat, size: nat, node: nat)
    requires MayAttempt(st, task, net, id)
    ensures var after := Deliver(st, task, net, id, size);
      after.db == st.db && NoNewLoad(st.db.servers, st.jobs, after.db.servers, after.jobs, node)
  {
    hide Serve, React, Seen;
    var job := st.jobs[task];
    AttemptFlight(job, Seen(net, Serve(st.cloud, job.phase.endpoint, job.phase.request, id, size, false).1));
  }

  lemma CommitQuiet(st: State, task: nat, owner: nat, resources: Resources, node: nat)
    requires Core(st) && Enabled(st, Commit(task, owner, resources))
    ensures var after := Committed(st.db, task, st.jobs[task], owner, resources);
      NoNewLoad(st.db.servers, st.jobs, after.servers, st.jobs, node)
  {
    hide EachJobOk, HostsOk, RowsOk, MayCommit, Committed, JobOk;
    var job := st.jobs[task];
    if job.kind.Provision? { CreatedServers(st.db, task, job, owner, resources); }
    else { CommitServers(st.db, task, job, owner, resources); }
  }

  lemma NothingCounted(servers: map<nat, ServerRow>, born: map<nat, Container>, hosts: map<nat, Option<nat>>,
                       jobs: map<nat, Job>, made: map<nat, nat>, node: nat)
    requires PlacementsOk(servers, born, hosts, jobs, made) && node !in hosts
    ensures UsedOn(servers, node) == Nothing
  {
    hide PlacementOk, Counted;
    forall s | s in servers ensures !Counted(servers[s], node) {
      PlacedOnHost(servers[s], s, born, hosts, node);
    }
    assert CountedOn(servers, node) == map[];
  }

  lemma NothingAsked(jobs: map<nat, Job>, born: map<nat, Container>, hosts: map<nat, Option<nat>>, made: map<nat, nat>,
                     node: nat)
    requires HandlesOk(jobs, born, hosts, made) && node !in hosts
    ensures Total(AskedOn(jobs, node)) == Nothing
  {
    hide HandleOk, HoldsOk, InFlightOn;
    forall t | t in jobs ensures !InFlightOn(jobs[t], node) {
      AskedOfHost(jobs[t], born, hosts, node);
    }
    assert AskedOn(jobs, node) == map[];
  }

  /** Nothing runs on a node that is only now registered, and nothing is in flight for it. */
  lemma NewNodeIdle(st: State, node: nat)
    requires Containers(st) && node !in st.hosts
    ensures Load(st.db.servers, st.jobs, node) == Nothing
  {
    hide BornOk, ReturnsOk, HandlesOk, PlacementsOk, UsedOn, AskedOn;
    NothingCounted(st.db.servers, st.cloud.born, st.hosts, st.jobs, st.made, node);
    NothingAsked(st.jobs, st.cloud.born, st.hosts, st.made, node);
  }

  lemma PlacedOnHost(row: ServerRow, server: nat, born: map<nat, Container>, hosts: map<nat, Option<nat>>, node: nat)
    requires PlacementOk(row, server, born, hosts) && node !in hosts
    ensures !Counted(row, node)
  {
  }

  lemma AskedOfHost(job: Job, born: map<nat, Container>, hosts: map<nat, Option<nat>>, node: nat)
    requires HandleOk(job, born, hosts) && node !in hosts
    ensures !InFlightOn(job, node)
  {
  }

  lemma AddNodeWithinCeiling(st: State, node: nat, row: NodeRow, k: nat, r: Resources)
    requires Fair(st, k, r) && Enabled(st, AddNode(node, row))
    ensures WithinCeiling(Apply(st, AddNode(node, row)), k, r)
  {
    hide Core, Containers, AsksOk, Load, Times;
    NewNodeIdle(st, node);
    TimesMonotone(0, k - 1, r);
    TimesZero(r);
  }

  lemma TimesZero(r: Resources)
    ensures Times(0, r) == Nothing
  {
    assert 0 as real * r.cpu == 0.0;
  }

  /** A step of the other kinds leaves the nodes it keeps with no more load than before. */
  lemma QuietStep(st: State, step: Step, node: nat)
    requires Core(st) && Enabled(st, step) && !step.Transact? && !step.AddNode? && !step.PatchNode?
    requires node in Apply(st, step).db.nodes
    ensures var after := Apply(st, step);
      && NoNewLoad(st.db.servers, st.jobs, after.db.servers, after.jobs, node)
      && node in st.db.nodes && AtMost(st.db.nodes[node].capacity, after.db.nodes[node].capacity)
  {
    hide Core, Deliver, NextTx, Committed, SelectorMayReturn;
    match step
    case Commit(task, owner, resources) =>
      CommitQuiet(st, task, owner, resources, node);
      CommittedNodes(st.db, task, st.jobs[task], owner, resources);
    case Attempt(task, net, id, size) => AttemptQuiet(st, task, net, id, size, node);
    case _ =>
  }

  /** Starting a server that is not counted adds all it asks for to the load of its node, and changes
      no other load. */
  lemma RevivalAddsAll(st: State, task: nat, choice: Option<nat>, silent: bool)
    requires MayTransact(st, task) && Core(st) && Revives(st, Transact(task, choice, silent))
    ensures var row := st.db.servers[st.jobs[task].server.value];
      var tx := NextTx(st.db, task, st.jobs[task], choice, silent);
      && row.node.value in st.db.nodes && tx.db.nodes == st.db.nodes
      && forall n :: n in st.db.nodes ==>
           Load(tx.db.servers, st.jobs[task := tx.job], n) ==
             if n == row.node.value then Plus(row.resources, Load(st.db.servers, st.jobs, n))
             else Load(st.db.servers, st.jobs, n)
  {
    hide Load, SelectorMayReturn, NextTx, JobsOk, TaskKeys, BackupKeys, RestoreKeys, OriginKeys, HostsOk;
    var job := st.jobs[task];
    var server := job.server.value;
    var row := st.db.servers[server];
    var tx := NextTx(st.db, task, job, choice, silent);
    TxServers(st.db, task, job, choice, silent);
    TxKeepsNodes(st.db, task, job, choice, silent);
    ClosingEnds(st.db, task, job, choice, silent);
    var revived := row.(status := ServerStatus.Running);
    assert tx.db.servers == st.db.servers[server := revived];
    forall n | n in st.db.nodes
      ensures Load(tx.db.servers, st.jobs[task := tx.job], n) ==
        if n == row.node.value then Plus(row.resources, Load(st.db.servers, st.jobs, n))
        else Load(st.db.servers, st.jobs, n)
    {
      OtherNode(st.jobs, task, tx.job, n);
      if n == row.node.value {
        NewlyUsed(st.db.servers, server, revived, n);
      } else {
        ElsewhereCounted(st.db.servers, server, revived, n);
      }
      LoadOf(st.db.servers, st.jobs, tx.db.servers, st.jobs[task := tx.job], n);
    }
  }

  lemma ClosingEnds(db: Db, task: nat, job: Job, choice: Option<nat>, silent: bool)
    requires job.phase.Closing?
    ensures NextTx(db, task, job, choice, silent).job == job.(phase := Ended)
  {
  }

  lemma LoadOf(servers: map<nat, ServerRow>, jobs: map<nat, Job>, servers': map<nat, ServerRow>, jobs': map<nat, Job>,
               node: nat)
    requires AskedOn(jobs', node) == AskedOn(jobs, node)
    ensures forall more :: UsedOn(servers', node) == Plus(more, UsedOn(servers, node)) ==>
      Load(servers', jobs', node) == Plus(more, Load(servers, jobs, node))
    ensures UsedOn(servers', node) == UsedOn(servers, node) ==>
      Load(servers', jobs', node) == Load(servers, jobs, node)
  {
    hide UsedOn, AskedOn;
  }

  /** A start that revives a server keeps the ceiling exactly when there is room for it. */
  lemma RevivalCeiling(st: State, task: nat, choice: Option<nat>, silent: bool, k: nat, r: Resources)
    requires MayTransact(st, task) && Fair(st, k, r) && Revives(st, Transact(task, choice, silent))
    ensures WithinCeiling(Run(st, task, NextTx(st.db, task, st.jobs[task], choice, silent)), k, r) <==>
      Affordable(st, Transact(task, choice, silent), k, r)
  {
    hide Core, Containers, AsksOk, Load, SelectorMayReturn, NextTx, Times;
    RevivalAddsAll(st, task, choice, silent);
    var tx := NextTx(st.db, task, st.jobs[task], choice, silent);
    var node := st.db.servers[st.jobs[task].server.value].node.value;
    var after := Run(st, task, tx);
    if WithinCeiling(after, k, r) {
      assert AtMost(Load(after.db.servers, after.jobs, node), Ceiling(after.db.nodes[node].capacity, k, r));
    }
  }

  /** A patch keeps the ceiling exactly when it leaves the node enough for what it carries. */
  lemma PatchCeiling(st: State, node: nat, endpoint: nat, status: NodeStatus, capacity: Resources, k: nat, r: Resources)
    requires Fair(st, k, r) && Enabled(st, PatchNode(node, endpoint, status, capacity))
    ensures WithinCeiling(Apply(st, PatchNode(node, endpoint, status, capacity)), k, r) <==>
      Affordable(st, PatchNode(node, endpoint, status, capacity), k, r)
  {
    hide Core, Containers, AsksOk, Load, Times;
    var after := Apply(st, PatchNode(node, endpoint, status, capacity));
    if WithinCeiling(after, k, r) {
      assert AtMost(Load(after.db.servers, after.jobs, node), Ceiling(after.db.nodes[node].capacity, k, r));
    }
  }

  /** Whatever happens, if at most k provisions are in flight, each asking for at most r: a step keeps
      every node within its capacity plus (k - 1) * r if and only if it is affordable. Only a start
      that revives a server and a patch of a node can fail to be. */
  lemma StepCeiling(st: State, step: Step, k: nat, r: Resources)
    requires Fair(st, k, r) && Enabled(st, step) && Bounded(Apply(st, step), k, r)
    ensures WithinCeiling(Apply(st, step), k, r) <==> Affordable(st, step, k, r)
    ensures !Revives(st, step) && !step.PatchNode? ==> WithinCeiling(Apply(st, step), k, r)
  {
    hide Core, Containers, AsksOk, WithinCeiling, Bounded, Load, Deliver, NextTx, Committed, SelectorMayReturn,
      NoNewLoad, Revives;
    match step
    case Transact(task, choice, silent) =>
      if Revives(st, step) {
        RevivalCeiling(st, task, choice, silent, k, r);
      } else {
        TransactWithinCeiling(st, task, choice, silent, k, r);
      }
    case AddNode(node, row) =>
      AddNodeWithinCeiling(st, node, row, k, r);
      NoTransact(st, step);
    case PatchNode(node, endpoint, status, capacity) => PatchCeiling(st, node, endpoint, status, capacity, k, r);
    case _ =>
      var after := Apply(st, step);
      forall n | n in after.db.nodes
        ensures n in st.db.nodes && AtMost(st.db.nodes[n].capacity, after.db.nodes[n].capacity)
        ensures AtMost(Load(after.db.servers, after.jobs, n), Load(st.db.servers, st.jobs, n))
      {
        QuietStep(st, step, n);
        NoNewLoadShrinks(st.db.servers, st.jobs, after.db.servers, after.jobs, n);
      }
      LoadShrinks(st, after, k, r);
      NoTransact(st, step);
  }

  lemma NoTransact(st: State, step: Step)
    requires !step.Transact?
    ensures !Revives(st, step)
  {
  }
}
