/** What holds between the containers on the agents, the placements in the server rows and
    the jobs that make, use and remove containers. */
module ContainerInvariant {
  import opened Wrappers
  import opened Rows
  import opened Repositories
  import opened Agent
  import opened NodeAgentClient
  import opened Jobs
  import opened Protocol
  import opened JobInvariant

  /** The job asks the agent for a container. */
  predicate AsksForContainer(job: Job) {
    job.phase.Calling? && job.phase.request.CreateContainer?
  }

  /** A provision job in such a phase will neither make nor record a container any more. */
  predicate Settled(job: Job) {
    job.phase.Closing? || job.phase.Failing? || job.phase.Ended?
  }

  /** A job asks one agent only; while it still asks for a container it has made, or a late request
      of its own has made, the container is there to be found. */
  predicate MadeBy(job: Job, id: nat, container: Container, live: set<nat>) {
    && !job.phase.Queued? && !job.phase.Marked? && job.agent.Some?
    && job.agent.value.endpoint == container.endpoint
    && (AsksForContainer(job) ==> id in live)
  }

  /** Two containers of one server, both there now or both made in time. */
  predicate Clashing(cloud: Cloud, c: nat, d: nat)
    requires c in cloud.born && d in cloud.born
  {
    && cloud.born[c].name == cloud.born[d].name
    && ((c in cloud.live && d in cloud.live) || (!cloud.born[c].late && !cloud.born[d].late))
  }

  /** Every container was made for the provision job of its server; no server has two at a time, and
      only requests carried out late make a second one. */
  ghost predicate BornOk(cloud: Cloud, jobs: map<nat, Job>, made: map<nat, nat>) {
    && cloud.live <= cloud.born.Keys
    && (forall c :: c in cloud.born ==>
          cloud.born[c].name in made && made[cloud.born[c].name] in jobs
          && MadeBy(jobs[made[cloud.born[c].name]], c, cloud.born[c], cloud.live))
    && (forall c, d :: c in cloud.born && d in cloud.born && Clashing(cloud, c, d) ==> c == d)
  }

  /** A request left behind was asked by its job, of the one agent the job talks to. */
  predicate StrayOk(stray: Stray, jobs: map<nat, Job>) {
    && stray.task in jobs && jobs[stray.task].agent.Some?
    && jobs[stray.task].agent.value.endpoint == stray.endpoint
    && Asks(jobs[stray.task], stray.request)
    && !jobs[stray.task].phase.Queued? && !jobs[stray.task].phase.Marked?
  }

  ghost predicate StraysOk(strays: set<Stray>, jobs: map<nat, Job>) {
    forall s :: s in strays ==> StrayOk(s, jobs)
  }

  /** The node has this endpoint, as far as its endpoint was never patched. */
  predicate At(hosts: map<nat, Option<nat>>, node: nat, endpoint: nat) {
    node in hosts && (hosts[node].Some? ==> hosts[node].value == endpoint)
  }

  /** The node and the container a job works with. */
  predicate HandleOk(job: Job, born: map<nat, Container>, hosts: map<nat, Option<nat>>) {
    && (job.agent.Some? ==> At(hosts, job.agent.value.node, job.agent.value.endpoint))
    && match job.phase
       case Calling(node, endpoint, request, _) =>
         && job.agent == Some(Route(node, endpoint))
         && (request.InspectContainer? && job.kind.Provision? ==>
               request.container in born && born[request.container] == Container(endpoint, job.origin.server, false))
       case Placing(node, container) =>
         && container in born && At(hosts, node, born[container].endpoint)
         && born[container].name == job.origin.server && !born[container].late
       case _ => true
  }

  /** A delete job that read a container read the one its server will ever have. */
  predicate HoldsOk(job: Job, born: map<nat, Container>, jobs: map<nat, Job>, made: map<nat, nat>) {
    job.kind.Delete? && job.container.Some? ==>
      && job.container.value in born && born[job.container.value].name == job.origin.server
      && job.origin.server in made && made[job.origin.server] in jobs
      && Settled(jobs[made[job.origin.server]])
  }

  ghost predicate HandlesOk(jobs: map<nat, Job>, born: map<nat, Container>, hosts: map<nat, Option<nat>>,
                            made: map<nat, nat>) {
    && (forall t :: t in jobs ==> HandleOk(jobs[t], born, hosts))
    && (forall t :: t in jobs ==> HoldsOk(jobs[t], born, jobs, made))
  }

  /** A recorded container is the one its provision job made, on the agent the recorded node had
      then, and a running or stopped server has one. */
  predicate PlacementOk(row: ServerRow, server: nat, born: map<nat, Container>, hosts: map<nat, Option<nat>>) {
    && (row.status.Running? || row.status.Stopped? ==> row.container.Some?)
    && (row.node.Some? ==> row.container.Some? && row.node.value in hosts)
    && (row.container.Some? ==>
          && row.container.value in born && born[row.container.value].name == server
          && !born[row.container.value].late)
    && (row.node.Some? ==> At(hosts, row.node.value, born[row.container.value].endpoint))
  }

  ghost predicate PlacementsOk(servers: map<nat, ServerRow>, born: map<nat, Container>, hosts: map<nat, Option<nat>>,
                               jobs: map<nat, Job>, made: map<nat, nat>)
  {
    && (forall s :: s in servers ==> PlacementOk(servers[s], s, born, hosts))
    && (forall s :: s in servers && servers[s].container.Some? ==>
          s in made && made[s] in jobs && Settled(jobs[made[s]]))
  }

  /** The job asked an agent that is not the one holding its container. */
  predicate AskedElsewhere(job: Job, born: map<nat, Container>) {
    && job.container.Some? && job.container.value in born && job.agent.Some?
    && job.agent.value.endpoint != born[job.container.value].endpoint
  }

  /** What a lifecycle job or a delete job may rely on when it comes back to the server row. */
  predicate ReturnOk(job: Job, row: ServerRow, live: set<nat>, born: map<nat, Container>) {
    && (IsLifecycle(job.kind) && (job.phase.Calling? || job.phase.Closing?) ==> row.container.Some?)
    && (job.kind.Delete? && job.container.Some? ==>
          && row.container == job.container
          && (job.phase.Lookup? || job.phase.Calling? ==> row.node.None? || row.node.value == job.phase.node)
          && (job.agent.Some? ==> row.node.None? || row.node.value == job.agent.value.node)
          && (job.phase.Closing? && job.container.value in live ==>
                row.node.None? || AskedElsewhere(job, born)))
  }

  ghost predicate ReturnsOk(jobs: map<nat, Job>, servers: map<nat, ServerRow>, cloud: Cloud) {
    forall t :: t in jobs && jobs[t].server.Some? && jobs[t].server.value in servers ==>
      ReturnOk(jobs[t], servers[jobs[t].server.value], cloud.live, cloud.born)
  }

  ghost predicate Containers(st: State) {
    && BornOk(st.cloud, st.jobs, st.made)
    && HandlesOk(st.jobs, st.cloud.born, st.hosts, st.made)
    && PlacementsOk(st.db.servers, st.cloud.born, st.hosts, st.jobs, st.made)
    && ReturnsOk(st.jobs, st.db.servers, st.cloud)
    && StraysOk(st.strays, st.jobs)
  }

  // ----- how a step moves a job

  predicate Steady(job: Job, after: Job) {
    && SameJob(job, after)
    && !after.phase.Queued?
    && (after.phase.Marked? ==> job.phase.Queued?)
    && (Settled(job) ==> Settled(after))
    && (AsksForContainer(after) ==> job.phase.Marked? || AsksForContainer(job))
    && (job.agent.Some? ==> after.agent == job.agent && after.container == job.container)
  }

  lemma TxSteady(db: Db, task: nat, job: Job, choice: Option<nat>, silent: bool)
    requires JobOk(job, Find(db.tasks, task)) && !job.phase.Calling? && !job.phase.Ended?
    ensures Steady(job, NextTx(db, task, job, choice, silent).job)
  {
    hide Begin, LocalsOk, RowOk;
    match job.phase
    case Queued => BeginSteady(db, task, job);
    case _ =>
  }

  lemma BeginSteady(db: Db, task: nat, job: Job)
    requires PhaseOk(job) && job.phase.Queued?
    ensures Steady(job, Begin(db, task, job).job)
  {
    match job.kind
    case Provision =>
    case Delete =>
    case Backup =>
    case Restore =>
    case _ =>
  }

  lemma ReactSteady(job: Job, outcome: Outcome)
    requires job.phase.Calling? && PhaseOk(job)
    ensures Steady(job, React(job, outcome))
  {
  }

  lemma BornOkAfter(cloud: Cloud, jobs: map<nat, Job>, made: map<nat, nat>, task: nat, job: Job)
    requires BornOk(cloud, jobs, made) && task in jobs && Steady(jobs[task], job)
    ensures BornOk(cloud, jobs[task := job], made)
  {
  }

  lemma StraysOkAfter(strays: set<Stray>, jobs: map<nat, Job>, task: nat, job: Job)
    requires StraysOk(strays, jobs) && task in jobs && Steady(jobs[task], job)
    ensures StraysOk(strays, jobs[task := job])
  {
  }

  lemma HandlesOkAfter(jobs: map<nat, Job>, born: map<nat, Container>, hosts: map<nat, Option<nat>>,
                       made: map<nat, nat>, task: nat, job: Job)
    requires HandlesOk(jobs, born, hosts, made) && task in jobs && Steady(jobs[task], job)
    requires HandleOk(job, born, hosts) && HoldsOk(job, born, jobs, made)
    ensures HandlesOk(jobs[task := job], born, hosts, made)
  {
    hide HandleOk;
    forall t | t in jobs ensures t != task ==> HoldsOk(jobs[t], born, jobs, made) {
    }
  }

  lemma PlacementsOkAfter(servers: map<nat, ServerRow>, born: map<nat, Container>, hosts: map<nat, Option<nat>>,
                          jobs: map<nat, Job>, made: map<nat, nat>, task: nat, job: Job)
    requires PlacementsOk(servers, born, hosts, jobs, made) && task in jobs && Steady(jobs[task], job)
    ensures PlacementsOk(servers, born, hosts, jobs[task := job], made)
  {
  }
}
