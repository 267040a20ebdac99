/** A server row goes only after its container, as far as the delete job knew of one. */
module DeleteSafety {
  import opened Wrappers
  import opened Rows
  import opened Repositories
  import opened NodeSelector
  import opened Agent
  import opened NodeAgentClient
  import opened Jobs
  import opened Protocol
  import opened JobInvariant
  import opened CoreInvariant
  import opened ContainerInvariant
  import opened ContainerSteps
  import opened Capacity
  import opened Runs
  import opened Witnesses

  /** The next transaction of this delete job removes a server whose node row exists. */
  ghost predicate Removing(st: State, task: nat) {
    && task in st.jobs && st.jobs[task].kind.Delete? && st.jobs[task].phase.Closing?
    && st.jobs[task].server.Some? && st.jobs[task].server.value in st.db.servers
    && st.db.servers[st.jobs[task].server.value].node.Some?
  }

  lemma RemovingFacts(st: State, task: nat)
    requires Core(st) && Containers(st) && Removing(st, task)
    ensures var job := st.jobs[task];
      var row := st.db.servers[job.server.value];
      && row.container.Some? && row.node.value in st.hosts
      && (job.container.Some? ==>
            && row.container == job.container
            && (job.container.value in st.cloud.live ==>
                  AskedElsewhere(job, st.cloud.born) && st.hosts[row.node.value].None?))
  {
    hide Core, BornOk;
    var job := st.jobs[task];
    var server := job.server.value;
    assert PlacementOk(st.db.servers[server], server, st.cloud.born, st.hosts);
    assert ReturnOk(job, st.db.servers[server], st.cloud.live, st.cloud.born);
    assert HandleOk(job, st.cloud.born, st.hosts);
  }

  lemma OnlyDeleteRemoves(st: State, step: Step, server: nat)
    requires Core(st) && Enabled(st, step) && server in st.db.servers && server !in Apply(st, step).db.servers
    ensures step.Transact? && step.task in st.jobs
    ensures st.jobs[step.task].kind.Delete? && st.jobs[step.task].phase.Closing?
      && st.jobs[step.task].server == Some(server)
  {
    hide Core, Deliver, NextTx, Committed, SelectorMayReturn;
    match step
    case Commit(task, owner, resources) =>
      if st.jobs[task].kind.Provision? { CreatedServers(st.db, task, st.jobs[task], owner, resources); }
      else { CommitServers(st.db, task, st.jobs[task], owner, resources); }
    case Attempt(task, net, id, size) => AttemptQuiet(st, task, net, id, size, 0);
    case Transact(task, choice, silent) => TxServers(st.db, task, st.jobs[task], choice, silent);
    case _ =>
  }

  /** Whatever answers were lost, late or errors: when a step makes a placed server's row vanish,
      it is the last transaction of that server's delete job, and if the job read a container when
      it began, that container is the recorded one and gone, or the agent the job asked is not the
      one that made it, which takes a patch of the node's endpoint. */
  lemma RowGoesAfterContainer(st: State, step: Step, server: nat)
    requires Reachable(st) && Enabled(st, step)
    requires server in st.db.servers && server !in Apply(st, step).db.servers
    ensures step.Transact? && step.task in st.jobs && st.jobs[step.task].kind.Delete?
    ensures st.jobs[step.task].server == Some(server)
    ensures var job := st.jobs[step.task];
      var row := st.db.servers[server];
      row.node.Some? && job.container.Some? ==>
        && row.container == job.container && row.node.value in st.hosts
        && (st.hosts[row.node.value].Some? || !AskedElsewhere(job, st.cloud.born) ==>
              job.container.value !in st.cloud.live)
  {
    hide IsRun, Invariant, Core, Containers, Enabled, Apply;
    ReachableInvariant(st);
    Parts(st);
    OnlyDeleteRemoves(st, step, server);
    if Removing(st, step.task) {
      RemovingFacts(st, step.task);
    }
  }

  /** The removal is confirmed by a 204 or a 404 and by nothing else; an error that cannot be
      retried any more sends the job to its failure handler. */
  lemma RemovalConfirmed(job: Job, outcome: Outcome)
    requires job.kind.Delete? && job.phase.Calling? && job.phase.request.RemoveContainer?
    ensures React(job, outcome).phase.Closing? <==>
      outcome.Arrived? && (outcome.answer.code == 204 || outcome.answer.code == 404)
    ensures React(job, outcome).phase.Closing? || React(job, outcome).phase.Failing? || React(job,
      outcome).phase.Calling?
  {
  }

  /** The failure handler keeps the server row as it is and marks the task failed. */
  lemma UnconfirmedKeepsRow(st: State, task: nat, choice: Option<nat>, silent: bool)
    requires Reachable(st) && Enabled(st, Transact(task, choice, silent))
    requires st.jobs[task].kind.Delete? && st.jobs[task].phase.Failing?
    ensures var after := Apply(st, Transact(task, choice, silent));
      && after.db.servers == st.db.servers
      && task in after.db.tasks && after.db.tasks[task].status == TaskStatus.Failed
      && after.jobs[task].phase.Ended?
  {
    hide IsRun, Invariant, Core;
    ReachableInvariant(st);
    Parts(st);
    JobOf(st, task);
    FailingDelete(st.jobs[task], Find(st.db.tasks, task));
  }

  lemma FailingDelete(job: Job, row: Option<TaskRow>)
    requires JobOk(job, row) && job.kind.Delete? && job.phase.Failing?
    ensures row.Some?
  {
  }

  /** The job is about to remove a row whose recorded container is still live. `read` says whether
      its first transaction had read a container, `elsewhere` whether it asked another agent than
      the one that made it. */
  ghost predicate LeavesContainer(st: State, task: nat, read: bool, elsewhere: bool) {
    && Reachable(st) && Removing(st, task) && st.jobs[task].container.Some? == read
    && AskedElsewhere(st.jobs[task], st.cloud.born) == elsewhere
    && st.db.servers[st.jobs[task].server.value].container.Some?
    && st.db.servers[st.jobs[task].server.value].container.value in st.cloud.live
  }

  /** The guarantee of a delete job holds over all runs if and only if its first transaction read a
      container and the agent it then asked is the one that made it. A job that read none skips the
      agent, even when a placement is recorded meanwhile; one whose node row has got another endpoint
      takes the 404 of the wrong agent for a confirmation. */
  lemma DeleteConfirms(read: bool, elsewhere: bool)
    requires elsewhere ==> read
    ensures (forall st: State, task: nat :: !LeavesContainer(st, task, read, elsewhere)) <==> read && !elsewhere
  {
    hide Reachable, Invariant, Core, Containers;
    if !read {
      var st := PlacedDuringDelete();
      assert LeavesContainer(st, 1, false, false);
    } else if elsewhere {
      var st := RemovedElsewhere();
      assert LeavesContainer(st, 1, true, true);
    } else {
      forall st: State, task: nat ensures !LeavesContainer(st, task, true, false) {
        if Reachable(st) && Removing(st, task) {
          ReachableInvariant(st);
          Parts(st);
          RemovingFacts(st, task);
        }
      }
    }
  }
}
