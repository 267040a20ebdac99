/** Jobs that meet no obstacle: from any state that suits them they run through, and nothing but
    their own rows, job and container changes. */
module Unhindered {
  import opened Wrappers
  import opened Rows
  import opened Repositories
  import opened Sums
  import opened NodeSelector
  import opened Agent
  import opened NodeAgentClient
  import opened Jobs
  import opened Protocol
  import opened Capacity
  import opened Runs

  const Ask := Resources(1.0, 1024)
  const OneNode := NodeRow(7, Online, Ask)

  // ----- single steps of runs in which only one job provisions at a time

  ghost predicate Calm(st: State, task: nat) {
    ReachableWithin(st, 1, Ask) && Provisions(st.jobs) <= {task}
  }

  lemma OneStep(st: State, step: Step, task: nat)
    requires Calm(st, task) && Enabled(st, step)
    requires var jobs := Apply(st, step).jobs;
      && (forall t :: t in jobs && t != task ==> t in st.jobs && jobs[t] == st.jobs[t])
      && (task in jobs && InFlight(jobs[task]) ==> jobs[task].ask == Ask)
    ensures Calm(Apply(st, step), task)
  {
    hide ReachableWithin, Enabled, Apply;
    var after := Apply(st, step);
    forall t | t in after.jobs && InFlight(after.jobs[t]) ensures t == task {
      assert t != task ==> t in Provisions(st.jobs);
    }
    SubsetSize(Provisions(after.jobs), {task});
    ExtendWithin(st, step, 1, Ask);
  }

  /** A request is enqueued and commits. */
  lemma RequestCommits(st: State, task: nat, kind: Kind, origin: Origin) returns (after: State)
    requires Calm(st, task) && task !in st.jobs && task !in st.db.tasks && MayCommit(st.db, NewJob(kind, origin))
    requires (kind.Provision? ==> origin.server !in st.made) && (kind.Backup? ==> origin.backup !in st.ordered)
    ensures Calm(after, task)
    ensures after.db == Committed(st.db, task, NewJob(kind, origin), 0, Ask)
    ensures after.jobs == st.jobs[task := NewJob(kind, origin)]
    ensures after.cloud == st.cloud && after.strays == st.strays && after.hosts == st.hosts
    ensures after.made == if kind.Provision? then st.made[origin.server := task] else st.made
    ensures after.ordered == if kind.Backup? then st.ordered[origin.backup := task] else st.ordered
  {
    hide Calm, Committed, MayCommit;
    var queued := Enqueued(st, task, kind, origin);
    OneStep(st, Enqueue(task, kind, origin), task);
    after := queued.(db := Committed(st.db, task, NewJob(kind, origin), 0, Ask));
    OneStep(queued, Commit(task, 0, Ask), task);
  }

  /** A job commits its next transaction. */
  lemma JobCommits(st: State, task: nat, choice: Option<nat>) returns (after: State)
    requires Calm(st, task) && task in st.jobs && !st.jobs[task].phase.Calling? && !st.jobs[task].phase.Ended?
    requires st.jobs[task].phase.Marked? ==> SelectorMayReturn(st.db, task, choice)
    requires var job := NextTx(st.db, task, st.jobs[task], choice, false).job; InFlight(job) ==> job.ask == Ask
    ensures Calm(after, task)
    ensures after.db == NextTx(st.db, task, st.jobs[task], choice, false).db
    ensures after.jobs == st.jobs[task := NextTx(st.db, task, st.jobs[task], choice, false).job]
    ensures after.cloud == st.cloud && after.strays == st.strays && after.hosts == st.hosts
    ensures after.made == st.made && after.ordered == st.ordered
  {
    hide Calm, NextTx, SelectorMayReturn;
    after := Run(st, task, NextTx(st.db, task, st.jobs[task], choice, false));
    OneStep(st, Transact(task, choice, false), task);
  }

  /** A job makes one attempt at its request. */
  lemma JobCalls(st: State, task: nat, net: Net, id: nat, size: nat) returns (after: State)
    requires Calm(st, task) && task in st.jobs && st.jobs[task].phase.Calling? && PossibleNet(net)
    requires id !in st.cloud.born
    requires InFlight(st.jobs[task]) ==> st.jobs[task].ask == Ask
    ensures Calm(after, task) && after == Deliver(st, task, net, id, size)
  {
    hide Calm, Serve, Seen;
    after := Deliver(st, task, net, id, size);
    var Calling(_, endpoint, request, _) := st.jobs[task].phase;
    AttemptFlight(st.jobs[task], Seen(net, Serve(st.cloud, endpoint, request, id, size, false).1));
    hide React;
    OneStep(st, Attempt(task, net, id, size), task);
  }

  lemma Recalm(st: State, task: nat, next: nat)
    requires Calm(st, task) && Provisions(st.jobs) == {}
    ensures Calm(st, next)
  {
    hide ReachableWithin;
  }

  // ----- whole jobs

  /** What a job leaves alone that is not its own. */
  ghost predicate Elsewhere(st: State, after: State, task: nat) {
    && after.db.nodes == st.db.nodes && after.hosts == st.hosts
    && after.jobs.Keys == st.jobs.Keys + {task} && after.db.tasks.Keys == st.db.tasks.Keys + {task}
    && Provisions(after.jobs) == {}
  }

  ghost predicate Unused(st: State, task: nat) {
    task !in st.jobs && task !in st.db.tasks && Calm(st, task) && Provisions(st.jobs) == {}
  }

  lemma NoneFlying(jobs: map<nat, Job>, after: map<nat, Job>, task: nat)
    requires Provisions(jobs) == {} && task in after && !InFlight(after[task])
    requires forall t :: t in after && t != task ==> t in jobs && after[t] == jobs[t]
    ensures Provisions(after) == {}
  {
    forall t | t in after ensures !InFlight(after[t]) {
      assert t != task ==> t !in Provisions(jobs);
    }
  }

  /** The server is placed on the node, whose agent has its container. */
  predicate On(st: State, server: nat, node: nat, container: nat) {
    && server in st.db.servers && st.db.servers[server].node == Some(node)
    && st.db.servers[server].container == Some(container)
    && node in st.db.nodes && Holds(st.cloud, st.db.nodes[node].endpoint, container)
  }

  /** A job that has read the placed server and its node. */
  function Reading(kind: Kind, origin: Origin, phase: Phase, container: nat, route: Route): Job {
    Job(kind, origin, phase, Some(origin.server), Some(container),
        if kind.Backup? then Some(origin.backup) else None, Some(route), Resources(0.0, 0), false)
  }

  function TaskFor(kind: Kind, origin: Origin): TaskRow {
    TaskRow(Some(origin.server), kind, TaskStatus.Pending, false, false,
            if kind.Backup? then Some(origin.backup) else None)
  }

  lemma Marking(db: Db, task: nat)
    ensures var after := MarkRunning(db, task);
      && after.servers == db.servers && after.nodes == db.nodes && after.backups == db.backups
      && after.tasks.Keys == db.tasks.Keys
      && forall t :: t in db.tasks && t != task ==> after.tasks[t] == db.tasks[t]
  {
  }

  lemma LifecycleCommits(db: Db, task: nat, kind: Kind, server: nat)
    requires IsLifecycle(kind)
    ensures var after := Committed(db, task, NewJob(kind, Origin(server, 0)), 0, Ask);
      && after.servers == db.servers && after.nodes == db.nodes
      && after.tasks == db.tasks[task := TaskFor(kind, Origin(server, 0))]
  {
  }

  lemma LifecycleBegins(db: Db, task: nat, kind: Kind, server: nat, node: nat, container: nat)
    requires IsLifecycle(kind) && task in db.tasks && db.tasks[task] == TaskFor(kind, Origin(server, 0))
    requires server in db.servers && db.servers[server].node == Some(node) && node in db.nodes
    requires db.servers[server].container == Some(container)
    ensures NextTx(db, task, NewJob(kind, Origin(server, 0)), None, false) ==
      Tx(MarkRunning(db, task),
         Reading(kind, Origin(server, 0), Calling(node, db.nodes[node].endpoint, ActOn(container, kind), 0), container,
                 Route(node, db.nodes[node].endpoint)))
  {
  }

  lemma LifecycleAnswered(st: State, task: nat, id: nat)
    requires task in st.jobs && st.jobs[task].phase.Calling? && st.jobs[task].phase.request.ActOn?
    requires Holds(st.cloud, st.jobs[task].phase.endpoint, st.jobs[task].phase.request.container)
    ensures Deliver(st, task, Reply, id, 0) == st.(jobs := st.jobs[task := st.jobs[task].(phase := Closing(0))])
  {
  }

  lemma LifecycleCloses(db: Db, task: nat, job: Job)
    requires IsLifecycle(job.kind) && job.phase == Closing(0) && job.server.Some? && job.server.value in db.servers
    requires task in db.tasks
    ensures var tx := NextTx(db, task, job, None, false);
      && tx.job == job.(phase := Ended) && tx.db.tasks.Keys == db.tasks.Keys && tx.db.nodes == db.nodes
      && tx.db.servers ==
           db.servers[job.server.value := db.servers[job.server.value].(status := Target(job.kind))]
  {
  }

  /** The same tables and agents but for one more task, and a job for it. */
  ghost predicate Grown(st: State, after: State, task: nat, job: Job) {
    && after.db.servers.Keys == st.db.servers.Keys && after.db.nodes == st.db.nodes && after.hosts == st.hosts
    && after.cloud.born == st.cloud.born && after.made == st.made
    && after.jobs == st.jobs[task := job] && after.db.tasks.Keys == st.db.tasks.Keys + {task}
  }

  lemma LifecycleAsks(st: State, task: nat, kind: Kind, server: nat, node: nat, container: nat) returns (after: State)
    requires Unused(st, task) && IsLifecycle(kind) && On(st, server, node, container)
    requires Allowed(kind, st.db.servers[server].status)
    ensures Calm(after, task) && after.cloud == st.cloud && after.db.servers == st.db.servers
    ensures var endpoint := st.db.nodes[node].endpoint;
      Grown(st, after, task, Reading(kind, Origin(server, 0), Calling(node, endpoint, ActOn(container, kind), 0),
                                     container, Route(node, endpoint)))
  {
    hide Calm, NextTx, Holds, Committed, MarkRunning, Provisions, SelectorMayReturn;
    var s1 := RequestCommits(st, task, kind, Origin(server, 0));
    LifecycleCommits(st.db, task, kind, server);
    Marking(s1.db, task);
    LifecycleBegins(s1.db, task, kind, server, node, container);
    after := JobCommits(s1, task, None);
  }

  /** A start, stop or restart of a placed server. */
  lemma LifecycleRun(st: State, task: nat, kind: Kind, server: nat, node: nat, container: nat, id: nat)
    returns (after: State)
    requires Unused(st, task) && IsLifecycle(kind) && On(st, server, node, container) && id !in st.cloud.born
    requires Allowed(kind, st.db.servers[server].status)
    ensures Elsewhere(st, after, task) && Calm(after, task)
    ensures after.cloud == st.cloud && after.made == st.made
    ensures after.db.servers == st.db.servers[server := st.db.servers[server].(status := Target(kind))]
  {
    hide Calm, NextTx, Deliver, Holds, Provisions;
    var s2 := LifecycleAsks(st, task, kind, server, node, container);
    var s3 := JobCalls(s2, task, Reply, id, 0);
    LifecycleAnswered(s2, task, id);
    LifecycleCloses(s3.db, task, s3.jobs[task]);
    after := JobCommits(s3, task, None);
    NoneFlying(st.jobs, after.jobs, task);
  }

  // ----- a provision

  function Choosing(server: nat, phase: Phase, node: nat, endpoint: nat): Job {
    Job(Provision, Origin(server, 0), phase, Some(server), None, None, Some(Route(node, endpoint)), Ask, false)
  }

  lemma ProvisionCommits(db: Db, task: nat, server: nat)
    ensures var after := Committed(db, task, NewJob(Provision, Origin(server, 0)), 0, Ask);
      && after.nodes == db.nodes && after.tasks == db.tasks[task := TaskFor(Provision, Origin(server, 0))]
      && after.servers == db.servers[server := ServerRow(0, ServerStatus.Pending, None, None, Ask)]
  {
  }

  lemma ProvisionBegins(db: Db, task: nat, server: nat)
    requires task in db.tasks && db.tasks[task] == TaskFor(Provision, Origin(server, 0))
    ensures NextTx(db, task, NewJob(Provision, Origin(server, 0)), None, false) ==
      Tx(MarkRunning(db, task), NewJob(Provision, Origin(server, 0)).(phase := Marked))
    ensures task in MarkRunning(db, task).tasks && MarkRunning(db, task).tasks[task].server == Some(server)
  {
  }

  lemma ProvisionSelects(db: Db, task: nat, server: nat, node: nat)
    requires task in db.tasks && db.tasks[task].server == Some(server) && server in db.servers && node in db.nodes
    requires db.servers[server].resources == Ask
    ensures NextTx(db, task, NewJob(Provision, Origin(server, 0)).(phase := Marked), Some(node), false) ==
      Tx(SetStatus(db, Some(server), ServerStatus.Provisioning),
         Choosing(server, Calling(node, db.nodes[node].endpoint, CreateContainer(server), 0), node,
                  db.nodes[node].endpoint))
  {
  }

  /** The only node is empty and fits the request exactly. */
  lemma EmptyNodeFits(db: Db, task: nat, server: nat)
    requires task in db.tasks && db.tasks[task].server == Some(server) && server in db.servers
    requires db.servers[server].resources == Ask && db.nodes.Keys == {0} && db.nodes[0].status.Online?
    requires db.nodes[0].capacity == Ask && db.servers[server].node.None?
    requires forall s :: s in db.servers ==> !Counted(db.servers[s], 0)
    ensures SelectorMayReturn(db, task, Some(0))
  {
    var seen := SetStatus(db, Some(server), ServerStatus.Provisioning);
    assert CountedOn(seen.servers, 0) == map[];
    assert LeastLoaded(seen.servers, seen.nodes, Ask, Some(0));
  }

  /** A queued provision whose request has committed, up to its create request. */
  lemma ProvisionAsks(st: State, task: nat, server: nat) returns (after: State)
    requires Calm(st, task) && task in st.jobs && st.jobs[task] == NewJob(Provision, Origin(server, 0))
    requires task in st.db.tasks && st.db.tasks[task] == TaskFor(Provision, Origin(server, 0))
    requires server in st.db.servers && st.db.servers[server].resources == Ask && st.db.servers[server].node.None?
    requires st.db.nodes.Keys == {0} && st.db.nodes[0].status.Online? && st.db.nodes[0].capacity == Ask
    requires forall s :: s in st.db.servers ==> !Counted(st.db.servers[s], 0)
    ensures Calm(after, task) && Same(st, after) && after.cloud == st.cloud
    ensures after.db.servers == SetStatus(st.db, Some(server), ServerStatus.Provisioning).servers
    ensures var endpoint := st.db.nodes[0].endpoint;
      after.jobs == st.jobs[task := Choosing(server, Calling(0, endpoint, CreateContainer(server), 0), 0, endpoint)]
  {
    hide Calm, NextTx, MarkRunning, Provisions, SelectorMayReturn, Counted;
    ProvisionBegins(st.db, task, server);
    Marking(st.db, task);
    var s1 := JobCommits(st, task, None);
    EmptyNodeFits(s1.db, task, server);
    ProvisionSelects(s1.db, task, server, 0);
    after := JobCommits(s1, task, Some(0));
  }

  /** What the steps of a job that neither begins nor ends leave alone. */
  ghost predicate Same(st: State, after: State) {
    && after.db.tasks.Keys == st.db.tasks.Keys && after.db.nodes == st.db.nodes && after.db.backups == st.db.backups
    && after.hosts == st.hosts && after.made == st.made && after.ordered == st.ordered && after.strays == st.strays
  }

  lemma CreateAnswered(st: State, task: nat, id: nat)
    requires task in st.jobs && st.jobs[task].phase.Calling? && st.jobs[task].phase.request.CreateContainer?
    requires !NameTaken(st.cloud, st.jobs[task].phase.endpoint, st.jobs[task].phase.request.name)
    ensures var Calling(node, endpoint, request, _) := st.jobs[task].phase;
      var made := Container(endpoint, request.name, false);
      Deliver(st, task, Reply, id, 0) ==
        st.(cloud := st.cloud.(born := st.cloud.born[id := made], live := st.cloud.live + {id}),
            jobs := st.jobs[task := st.jobs[task].(phase := Calling(node, endpoint, InspectContainer(id), 0))])
  {
  }

  lemma InspectAnswered(st: State, task: nat, id: nat)
    requires task in st.jobs && st.jobs[task].phase.Calling? && st.jobs[task].phase.request.InspectContainer?
    requires st.jobs[task].kind.Provision?
    requires Holds(st.cloud, st.jobs[task].phase.endpoint, st.jobs[task].phase.request.container)
    ensures Deliver(st, task, Reply, id, 0) ==
      st.(jobs := st.jobs[task := st.jobs[task].(phase :=
            Placing(st.jobs[task].phase.node, st.jobs[task].phase.request.container))])
  {
  }

  lemma ProvisionPlaces(db: Db, task: nat, job: Job)
    requires job.kind.Provision? && job.phase.Placing? && job.server.Some? && job.server.value in db.servers
    requires job.phase.node in db.nodes
    ensures var tx := NextTx(db, task, job, None, false);
      && tx.job == job.(phase := Closing(0)) && tx.db.tasks == db.tasks && tx.db.nodes == db.nodes
      && tx.db.backups == db.backups
      && tx.db.servers == SetProvisioned(db, job.server.value, job.phase.node, job.phase.container).servers
  {
  }

  /** From the create request, at whatever attempt, to the placement. */
  lemma ProvisionEnds(st: State, task: nat, server: nat, container: nat, id: nat, attempt: nat) returns (after: State)
    requires Calm(st, task) && task in st.jobs && 0 in st.db.nodes && server in st.db.servers
    requires st.jobs[task] == Choosing(server, Calling(0, st.db.nodes[0].endpoint, CreateContainer(server), attempt), 0,
                                       st.db.nodes[0].endpoint)
    requires !NameTaken(st.cloud, st.db.nodes[0].endpoint, server)
    requires container !in st.cloud.born && id !in st.cloud.born && id != container
    ensures Calm(after, task) && Provisions(after.jobs) == {} && Same(st, after)
    ensures after.cloud == Cloud(st.cloud.born[container := Container(st.db.nodes[0].endpoint, server, false)],
                                 st.cloud.live + {container}, st.cloud.objects)
    ensures after.db.servers == SetProvisioned(st.db, server, 0, container).servers
    ensures after.jobs == st.jobs[task := Choosing(server, Closing(0), 0, st.db.nodes[0].endpoint)]
  {
    hide Calm, NextTx, Deliver, NameTaken, Provisions, SetProvisioned;
    var s1 := JobCalls(st, task, Reply, container, 0);
    CreateAnswered(st, task, container);
    var s2 := JobCalls(s1, task, Reply, id, 0);
    InspectAnswered(s1, task, id);
    ProvisionPlaces(s2.db, task, s2.jobs[task]);
    after := JobCommits(s2, task, None);
    StillNone(after, task);
  }

  lemma StillNone(st: State, task: nat)
    requires Calm(st, task) && task in st.jobs && !InFlight(st.jobs[task])
    ensures Provisions(st.jobs) == {}
  {
    hide ReachableWithin;
  }

  // ----- a delete

  lemma DeleteCommits(db: Db, task: nat, server: nat)
    ensures var after := Committed(db, task, NewJob(Delete, Origin(server, 0)), 0, Ask);
      && after.nodes == db.nodes && after.backups == db.backups
      && after.tasks == db.tasks[task := TaskFor(Delete, Origin(server, 0))]
      && after.servers == SetStatus(db, Some(server), Deleting).servers
  {
  }

  /** The first transaction, for a server with or without a container. */
  lemma DeleteBegins(db: Db, task: nat, server: nat)
    requires task in db.tasks && db.tasks[task] == TaskFor(Delete, Origin(server, 0)) && server in db.servers
    ensures var row := db.servers[server];
      NextTx(db, task, NewJob(Delete, Origin(server, 0)), None, false) ==
        Tx(MarkRunning(db, task),
           NewJob(Delete, Origin(server, 0)).(server := Some(server), container := row.container,
             phase := if row.container.Some? && row.node.Some? then Lookup(row.node.value) else Closing(0)))
  {
  }

  lemma DeleteLooksUp(db: Db, task: nat, job: Job)
    requires job.phase.Lookup? && job.phase.node in db.nodes && job.container.Some?
    ensures var endpoint := db.nodes[job.phase.node].endpoint;
      NextTx(db, task, job, None, false) ==
        Tx(db, job.(agent := Some(Route(job.phase.node, endpoint)),
                    phase := Calling(job.phase.node, endpoint, RemoveContainer(job.container.value), 0)))
  {
  }

  /** The request of a delete and the first transaction of its job. */
  lemma DeleteStarts(st: State, task: nat, server: nat) returns (after: State)
    requires Unused(st, task) && server in st.db.servers && !st.db.servers[server].status.Deleting?
    ensures Calm(after, task) && after.cloud == st.cloud && after.strays == st.strays
    ensures after.db.nodes == st.db.nodes && after.hosts == st.hosts && after.made == st.made
    ensures after.db.servers == SetStatus(st.db, Some(server), Deleting).servers
    ensures var row := st.db.servers[server];
      after.jobs == st.jobs[task := NewJob(Delete, Origin(server, 0)).(
        server := Some(server), container := row.container,
        phase := if row.container.Some? && row.node.Some? then Lookup(row.node.value) else Closing(0))]
    ensures after.db.tasks.Keys == st.db.tasks.Keys + {task}
    ensures forall t :: t in st.db.tasks && t != task ==> after.db.tasks[t] == st.db.tasks[t]
  {
    hide Calm, NextTx, Committed, MarkRunning, Provisions, SelectorMayReturn;
    var s1 := RequestCommits(st, task, Delete, Origin(server, 0));
    DeleteCommits(st.db, task, server);
    Marking(s1.db, task);
    DeleteBegins(s1.db, task, server);
    after := JobCommits(s1, task, None);
  }

  lemma RemoveAnswered(st: State, task: nat, id: nat)
    requires task in st.jobs && st.jobs[task].phase.Calling? && st.jobs[task].phase.request.RemoveContainer?
    ensures var Calling(_, endpoint, request, _) := st.jobs[task].phase;
      Deliver(st, task, Reply, id, 0) ==
        st.(cloud := st.cloud.(live := if Holds(st.cloud, endpoint, request.container)
                                       then st.cloud.live - {request.container} else st.cloud.live),
            jobs := st.jobs[task := st.jobs[task].(phase := Closing(0))])
  {
  }

  /** A delete of a placed server up to the answer of the agent its node row names. */
  lemma DeleteAsks(st: State, task: nat, server: nat, node: nat, container: nat, id: nat) returns (after: State)
    requires Unused(st, task) && server in st.db.servers && !st.db.servers[server].status.Deleting?
    requires st.db.servers[server].node == Some(node) && st.db.servers[server].container == Some(container)
    requires node in st.db.nodes && id !in st.cloud.born
    ensures Calm(after, task) && after.strays == st.strays && after.db.nodes == st.db.nodes && after.hosts == st.hosts
    ensures after.db.servers == SetStatus(st.db, Some(server), Deleting).servers
    ensures after.cloud == st.cloud.(live := if Holds(st.cloud, st.db.nodes[node].endpoint, container)
                                             then st.cloud.live - {container} else st.cloud.live)
    ensures after.jobs == st.jobs[task := NewJob(Delete, Origin(server, 0)).(
      server := Some(server), container := Some(container), agent := Some(Route(node, st.db.nodes[node].endpoint)),
      phase := Closing(0))]
  {
    hide Calm, NextTx, Provisions, Deliver, Holds, SetStatus;
    var s1 := DeleteStarts(st, task, server);
    DeleteLooksUp(s1.db, task, s1.jobs[task]);
    var s2 := JobCommits(s1, task, None);
    after := JobCalls(s2, task, Reply, id, 0);
    RemoveAnswered(s2, task, id);
  }
}
