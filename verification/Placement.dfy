/** Where a server runs: under every interleaving of requests, jobs and node deletions. */
module Placement {
  import opened Wrappers
  import opened Rows
  import opened Repositories
  import opened Agent
  import opened NodeAgentClient
  import opened Jobs
  import opened Protocol
  import opened JobInvariant
  import opened CoreInvariant
  import opened ContainerInvariant
  import opened ContainerSteps
  import opened Capacity
  import opened Runs
  import opened Witnesses

  /** The request that created the server is committed. */
  ghost predicate Created(st: State, server: nat) {
    server in st.made && st.made[server] in st.db.tasks
  }

  /** A row that is still there keeps the container it has. */
  predicate KeepsContainer(servers: map<nat, ServerRow>, after: map<nat, ServerRow>, server: nat) {
    server in after ==>
      server in servers
      && (servers[server].container.Some? ==> after[server].container == servers[server].container)
  }

  lemma TransactKeepsContainer(st: State, task: nat, choice: Option<nat>, silent: bool, server: nat)
    requires MayTransact(st, task) && Core(st) && Containers(st)
    ensures KeepsContainer(st.db.servers, NextTx(st.db, task, st.jobs[task], choice, silent).db.servers, server)
  {
    hide NextTx, SelectorMayReturn, EachJobOk, TasksHaveJobs, RowsOk, Histories, HostsOk, BornOk, HandlesOk, ReturnsOk,
      PlacementsOk, JobOk;
    var job := st.jobs[task];
    JobOf(st, task);
    TxServers(st.db, task, job, choice, silent);
    if job.phase.Placing? {
      PlacingJob(job, Find(st.db.tasks, task));
      if job.origin.server in st.db.servers { NotYetPlaced(st, task); }
    }
  }

  lemma CommitKeepsContainer(st: State, task: nat, owner: nat, resources: Resources, server: nat)
    requires Core(st) && Enabled(st, Commit(task, owner, resources)) && Created(st, server)
    ensures KeepsContainer(st.db.servers, Committed(st.db, task, st.jobs[task], owner, resources).servers, server)
  {
    hide Committed, EachJobOk, TasksHaveJobs, RowsOk, HostsOk, MayCommit;
    var job := st.jobs[task];
    if job.kind.Provision? { CreatedServers(st.db, task, job, owner, resources); }
    else { CommitServers(st.db, task, job, owner, resources); }
  }

  lemma StepKeepsContainer(st: State, step: Step, server: nat)
    requires Core(st) && Containers(st) && Enabled(st, step) && Created(st, server)
    ensures KeepsContainer(st.db.servers, Apply(st, step).db.servers, server)
  {
    hide Core, Containers, Deliver, NextTx, Committed, SelectorMayReturn, Created;
    match step
    case Commit(task, owner, resources) => CommitKeepsContainer(st, task, owner, resources, server);
    case Transact(task, choice, silent) => TransactKeepsContainer(st, task, choice, silent, server);
    case Attempt(task, net, id, size) =>
      assert Apply(st, step).db == st.db by { AttemptQuiet(st, task, net, id, size, 0); }
    case _ =>
  }

  lemma StepKeepsCreated(st: State, step: Step, server: nat)
    requires Core(st) && Enabled(st, step) && Created(st, server)
    ensures Created(Apply(st, step), server)
  {
    hide EachJobOk, TasksHaveJobs, RowsOk, HostsOk, Histories, Deliver, NextTx, Committed, SelectorMayReturn;
    match step
    case Commit(task, owner, resources) => CommittedTask(st.db, task, st.jobs[task], owner, resources);
    case Transact(task, choice, silent) => TxKeepsJob(st.db, st.jobs, st.made, st.ordered, task, choice, silent);
    case Attempt(task, net, id, size) => AttemptQuiet(st, task, net, id, size, 0); DeliverMade(st, task, net, id, size);
    case _ =>
  }

  lemma DeliverMade(st: State, task: nat, net: Net, id: nat, size: nat)
    requires task in st.jobs && st.jobs[task].phase.Calling?
    ensures Deliver(st, task, net, id, size).made == st.made
  {
  }

  lemma RowIsCreated(st: State, server: nat)
    requires Core(st) && server in st.db.servers
    ensures Created(st, server)
  {
  }

  /** A running or stopped server has a container; it was made for this server by its provision job,
      on the agent the recorded node has, unless the node's endpoint was patched meanwhile. */
  lemma RunningIsPlaced(st: State, server: nat)
    requires Reachable(st) && server in st.db.servers
    ensures var row := st.db.servers[server];
      && (row.status.Running? || row.status.Stopped? ==> row.container.Some?)
      && (row.node.Some? ==> row.container.Some? && row.node.value in st.db.nodes)
      && (row.node.Some? ==>
            && row.container.value in st.cloud.born && row.node.value in st.hosts
            && st.cloud.born[row.container.value].name == server && !st.cloud.born[row.container.value].late
            && (st.hosts[row.node.value].Some? ==>
                  st.cloud.born[row.container.value].endpoint == st.db.nodes[row.node.value].endpoint))
  {
    ReachableInvariant(st);
    hide EachJobOk, TasksHaveJobs, BornOk, HandlesOk, ReturnsOk, TaskKeys, BackupKeys, RestoreKeys, OriginKeys,
      Histories,
      AsksOk, IsRun;
    assert PlacementOk(st.db.servers[server], server, st.cloud.born, st.hosts);
  }

  /** A placed server whose node has another endpoint than the agent that made the container;
      `patched` says whether the endpoint of the node was ever patched. */
  ghost predicate Misplaced(st: State, server: nat, patched: bool) {
    && Reachable(st) && server in st.db.servers
    && var row := st.db.servers[server];
    && row.node.Some? && row.node.value in st.db.nodes && row.node.value in st.hosts
    && row.container.Some? && row.container.value in st.cloud.born
    && st.cloud.born[row.container.value].endpoint != st.db.nodes[row.node.value].endpoint
    && patched == st.hosts[row.node.value].None?
  }

  /** That a placed server's container is on the agent of its node holds over all runs if and only if
      the endpoint of the node is not patched. */
  lemma PlacedOnItsAgent(patched: bool)
    ensures (forall st: State, server: nat :: !Misplaced(st, server, patched)) <==> !patched
  {
    hide Reachable;
    if patched {
      var st := MovedNode();
      assert Misplaced(st, 0, true);
    } else {
      forall st: State, server: nat ensures !Misplaced(st, server, false) {
        if Reachable(st) && server in st.db.servers {
          RunningIsPlaced(st, server);
        }
      }
    }
  }

  /** However often a create request is repeated, and even when the agent carries one out after its
      client gave up: no server has two containers at a time, at most one was ever made in time, and
      that is the one its row records. */
  lemma OneContainer(st: State, server: nat, container: nat)
    requires Reachable(st) && container in st.cloud.born && st.cloud.born[container].name == server
    ensures container in st.cloud.live ==>
      forall other :: other in st.cloud.live && other in st.cloud.born && st.cloud.born[other].name == server ==>
        other == container
    ensures !st.cloud.born[container].late ==>
      forall other :: other in st.cloud.born && st.cloud.born[other].name == server && !st.cloud.born[other].late ==>
        other == container
    ensures server in st.db.servers && st.db.servers[server].container.Some? && !st.cloud.born[container].late ==>
      st.db.servers[server].container.value == container
  {
    hide IsRun, Invariant, Core, BornOk, HandlesOk, PlacementsOk, ReturnsOk, StraysOk;
    ReachableInvariant(st);
    Parts(st);
    OthersClash(st.cloud, st.jobs, st.made, container);
    if server in st.db.servers && st.db.servers[server].container.Some? {
      RecordedIsBorn(st, server);
    }
  }

  lemma RecordedIsBorn(st: State, server: nat)
    requires Containers(st) && server in st.db.servers && st.db.servers[server].container.Some?
    ensures var recorded := st.db.servers[server].container.value;
      recorded in st.cloud.born && st.cloud.born[recorded].name == server && !st.cloud.born[recorded].late
  {
    hide BornOk, HandlesOk, ReturnsOk, StraysOk;
    assert PlacementOk(st.db.servers[server], server, st.cloud.born, st.hosts);
  }

  lemma OthersClash(cloud: Cloud, jobs: map<nat, Job>, made: map<nat, nat>, container: nat)
    requires BornOk(cloud, jobs, made) && container in cloud.born
    ensures forall other :: other in cloud.born && Clashing(cloud, container, other) ==> other == container
  {
    hide MadeBy, Clashing;
  }

  /** Two containers were made for one server; `late` says whether a late request made one of them. */
  ghost predicate HadTwo(st: State, c: nat, d: nat, late: bool) {
    && Reachable(st) && c in st.cloud.born && d in st.cloud.born && c != d
    && st.cloud.born[c].name == st.cloud.born[d].name
    && late == (st.cloud.born[c].late || st.cloud.born[d].late)
  }

  /** That a server only ever gets one container holds over all runs if and only if no create request
      is carried out after its client gave up. */
  lemma OneContainerEver(late: bool)
    ensures (forall st: State, c: nat, d: nat :: !HadTwo(st, c, d, late)) <==> !late
  {
    hide Reachable;
    if late {
      var st := CreatedAgain();
      assert HadTwo(st, 5, 6, true);
    } else {
      forall st: State, c: nat, d: nat ensures !HadTwo(st, c, d, false) {
        if Reachable(st) && c in st.cloud.born {
          OneContainer(st, st.cloud.born[c].name, c);
        }
      }
    }
  }

  /** A recorded container is never cleared or exchanged while the row exists, and a deleted row
      never comes back. */
  lemma {:induction false} ContainerIsForever(states: seq<State>, steps: seq<Step>, i: nat, j: nat, server: nat)
    requires IsRun(states, steps) && i <= j < |states| && server in states[i].db.servers
    ensures KeepsContainer(states[i].db.servers, states[j].db.servers, server)
    ensures Created(states[j], server)
    decreases j
  {
    hide Invariant, Core, Containers, Enabled, Apply, Created;
    RunKeepsInvariant(states, steps, i);
    assert Core(states[i]) by { Parts(states[i]); }
    RowIsCreated(states[i], server);
    if i < j {
      ContainerIsForever(states, steps, i, j - 1, server);
      RunKeepsInvariant(states, steps, j - 1);
      Parts(states[j - 1]);
      StepKeepsContainer(states[j - 1], steps[j - 1], server);
      StepKeepsCreated(states[j - 1], steps[j - 1], server);
    }
  }
}
