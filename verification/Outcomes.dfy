/** What a succeeded task says about the server it was created for. */
module Outcomes {
  import opened Wrappers
  import opened Rows
  import opened Repositories
  import opened Agent
  import opened NodeAgentClient
  import opened Jobs
  import opened Protocol
  import opened JobInvariant
  import opened CoreInvariant
  import opened ContainerInvariant
  import opened ContainerSteps
  import opened Capacity
  import opened Runs
  import opened Placement
  import opened TaskMachine

  /** A delete that succeeded left no row. A provision that succeeded, or is about to, left the row
      with its container. */
  predicate SuccessOk(job: Job, row: TaskRow, servers: map<nat, ServerRow>) {
    var server := job.origin.server;
    && (job.kind.Delete? && row.status.Succeeded? ==> server !in servers)
    && (job.kind.Provision? && (row.status.Succeeded? || job.phase.Closing?) ==>
          server in servers ==> servers[server].container.Some?)
  }

  ghost predicate SuccessesOk(st: State) {
    forall t :: t in st.db.tasks && t in st.jobs ==> SuccessOk(st.jobs[t], st.db.tasks[t], st.db.servers)
  }

  lemma KeptSuccess(job: Job, row: TaskRow, servers: map<nat, ServerRow>, job': Job, row': TaskRow,
                    servers': map<nat, ServerRow>)
    requires SuccessOk(job, row, servers) && SameJob(job, job')
    requires KeepsContainer(servers, servers', job.origin.server)
    requires row'.status.Succeeded? ==> row.status.Succeeded? || (job.kind.Provision? && job.phase.Closing?)
    requires job.kind.Provision? && job'.phase.Closing? ==> job.phase.Closing?
    ensures SuccessOk(job', row', servers')
  {
  }

  lemma OwnSuccess(db: Db, task: nat, job: Job, choice: Option<nat>, silent: bool)
    requires JobOk(job, Find(db.tasks, task)) && task in db.tasks && !job.phase.Calling? && !job.phase.Ended?
    requires SuccessOk(job, db.tasks[task], db.servers) && TaskKeys(db.tasks, db.servers)
    ensures var tx := NextTx(db, task, job, choice, silent);
      task in tx.db.tasks && SuccessOk(tx.job, tx.db.tasks[task], tx.db.servers)
  {
    hide Begin, Close;
    match job.phase
    case Queued => OwnFirst(db, task, job);
    case Closing(_) => OwnClose(db, task, job);
    case _ =>
  }

  lemma OwnClose(db: Db, task: nat, job: Job)
    requires JobOk(job, Find(db.tasks, task)) && task in db.tasks && job.phase.Closing?
    requires SuccessOk(job, db.tasks[task], db.servers)
    ensures var tx := Close(db, task, job);
      task in tx.db.tasks && SuccessOk(tx.job, tx.db.tasks[task], tx.db.servers)
  {
  }

  lemma OwnFirst(db: Db, task: nat, job: Job)
    requires JobOk(job, Find(db.tasks, task)) && task in db.tasks && job.phase.Queued?
    requires TaskKeys(db.tasks, db.servers)
    ensures var tx := Begin(db, task, job);
      task in tx.db.tasks && SuccessOk(tx.job, tx.db.tasks[task], tx.db.servers)
  {
    match job.kind
    case Provision =>
    case Delete =>
    case _ => FirstSameJob(db, task, job);
  }

  lemma FirstSameJob(db: Db, task: nat, job: Job)
    ensures SameJob(job, Begin(db, task, job).job) && (task in db.tasks ==> task in Begin(db, task, job).db.tasks)
  {
    match job.kind
    case Provision =>
    case Delete =>
    case Backup =>
    case Restore =>
    case _ =>
  }

  lemma TransactKeepsSuccess(st: State, task: nat, choice: Option<nat>, silent: bool, t: nat)
    requires Core(st) && Containers(st) && Enabled(st, Transact(task, choice, silent)) && SuccessesOk(st)
    requires t in st.db.tasks && t in st.jobs
    ensures var after := Apply(st, Transact(task, choice, silent));
      t in after.db.tasks && t in after.jobs && SuccessOk(after.jobs[t], after.db.tasks[t], after.db.servers)
  {
    hide NextTx, SelectorMayReturn, EachJobOk, HostsOk, JobOk, Histories, SuccessOk, KeepsContainer, Containers,
      ServerKeys, BackupKeys, RestoreKeys, OriginKeys, TaskKeys;
    var tx := NextTx(st.db, task, st.jobs[task], choice, silent);
    TxKeepsJob(st.db, st.jobs, st.made, st.ordered, task, choice, silent);
    if t == task {
      JobOf(st, task);
      OwnSuccess(st.db, task, st.jobs[task], choice, silent);
    } else {
      TransactKeepsContainer(st, task, choice, silent, st.jobs[t].origin.server);
      KeptSuccess(st.jobs[t], st.db.tasks[t], st.db.servers, st.jobs[t], tx.db.tasks[t], tx.db.servers);
    }
  }

  /** A step that is no transaction neither finishes a task nor makes a provision succeed. */
  lemma OtherStepKeepsSuccess(st: State, step: Step, t: nat)
    requires Core(st) && Containers(st) && Enabled(st, step) && SuccessesOk(st) && !step.Transact?
    requires t in st.db.tasks && t in st.jobs
    ensures var after := Apply(st, step);
      t in after.db.tasks && t in after.jobs && SuccessOk(after.jobs[t], after.db.tasks[t], after.db.servers)
  {
    hide NextTx, SelectorMayReturn, EachJobOk, HostsOk, JobOk, Histories, SuccessOk, KeepsContainer, Containers,
      ServerKeys, BackupKeys, RestoreKeys, TaskKeys, Deliver, Committed, Created;
    var after := Apply(st, step);
    OriginIsCreated(st, t);
    StepKeepsContainer(st, step, st.jobs[t].origin.server);
    SameTask(st, step, t);
    KeptSuccess(st.jobs[t], st.db.tasks[t], st.db.servers, after.jobs[t], after.db.tasks[t], after.db.servers);
  }

  lemma SameTask(st: State, step: Step, t: nat)
    requires Core(st) && Enabled(st, step) && !step.Transact? && t in st.db.tasks && t in st.jobs
    ensures var after := Apply(st, step);
      && t in after.db.tasks && after.db.tasks[t] == st.db.tasks[t]
      && t in after.jobs && SameJob(st.jobs[t], after.jobs[t])
      && (st.jobs[t].kind.Provision? && after.jobs[t].phase.Closing? ==> st.jobs[t].phase.Closing?)
  {
    hide NextTx, SelectorMayReturn, JobsOk, RowsOk, HostsOk, Deliver, Committed;
    if step.Commit? {
      CommittedTask(st.db, step.task, st.jobs[step.task], step.owner, step.resources);
    } else if step.Attempt? {
      AttemptQuiet(st, step.task, step.net, step.id, step.size, 0);
      AttemptJob(st, step.task, step.net, step.id, step.size, t);
    }
  }

  lemma AttemptJob(st: State, task: nat, net: Net, id: nat, size: nat, t: nat)
    requires Core(st) && task in st.jobs && st.jobs[task].phase.Calling? && t in st.jobs
    ensures var after := Deliver(st, task, net, id, size);
      && t in after.jobs && SameJob(st.jobs[t], after.jobs[t])
      && (st.jobs[t].kind.Provision? && after.jobs[t].phase.Closing? ==> st.jobs[t].phase.Closing?)
  {
    hide Serve, Seen, EachJobOk, HostsOk, RowsOk, Histories, TasksHaveJobs;
    JobOf(st, task);
  }

  lemma OriginIsCreated(st: State, t: nat)
    requires Core(st) && t in st.db.tasks && t in st.jobs
    ensures Created(st, st.jobs[t].origin.server)
  {
  }

  lemma StepKeepsSuccesses(st: State, step: Step)
    requires Core(st) && Containers(st) && Enabled(st, step) && SuccessesOk(st)
    ensures SuccessesOk(Apply(st, step))
  {
    hide Core, Containers, Enabled, Apply, SuccessOk;
    var after := Apply(st, step);
    forall t | t in after.db.tasks && t in after.jobs
      ensures SuccessOk(after.jobs[t], after.db.tasks[t], after.db.servers)
    {
      if t in st.db.tasks {
        TaskHasJob(st, t);
        if step.Transact? { TransactKeepsSuccess(st, step.task, step.choice, step.silent, t); }
        else { OtherStepKeepsSuccess(st, step, t); }
      } else {
        NewTaskSuccess(st, step, t);
      }
    }
  }

  lemma TaskHasJob(st: State, t: nat)
    requires Core(st) && t in st.db.tasks
    ensures t in st.jobs
  {
  }

  lemma NewTaskSuccess(st: State, step: Step, t: nat)
    requires Core(st) && Enabled(st, step) && t !in st.db.tasks && t in Apply(st, step).db.tasks
    ensures t in Apply(st, step).jobs
    ensures SuccessOk(Apply(st, step).jobs[t], Apply(st, step).db.tasks[t], Apply(st, step).db.servers)
  {
    hide EachJobOk, HostsOk, RowsOk, Histories, NextTx, SelectorMayReturn, Deliver, Committed;
    match step
    case Commit(task, owner, resources) =>
      CommittedTask(st.db, task, st.jobs[task], owner, resources);
      JobOf(st, task);
    case Attempt(task, net, id, size) => AttemptQuiet(st, task, net, id, size, 0);
    case Transact(task, choice, silent) => TxKeepsJob(st.db, st.jobs, st.made, st.ordered, task, choice, silent);
    case _ =>
  }

  lemma {:induction false} RunKeepsSuccesses(states: seq<State>, steps: seq<Step>, i: nat)
    requires IsRun(states, steps) && i < |states|
    ensures SuccessesOk(states[i])
  {
    hide Invariant, Core, Containers, Enabled, Apply, SuccessesOk;
    if i == 0 {
      assert SuccessesOk(Initial) by { NoSuccessYet(); }
    } else {
      RunKeepsSuccesses(states, steps, i - 1);
      RunStep(states, steps, i - 1);
      RunKeepsInvariant(states, steps, i - 1);
      Parts(states[i - 1]);
      StepKeepsSuccesses(states[i - 1], steps[i - 1]);
    }
  }

  lemma NoSuccessYet()
    ensures SuccessesOk(Initial)
  {
  }

  /** In every reachable state: the server of a succeeded delete task is gone, and the server of a
      succeeded provision task, while it exists, has its container. */
  lemma SucceededMeans(st: State, t: nat)
    requires Reachable(st) && t in st.db.tasks && st.db.tasks[t].status.Succeeded?
    ensures t in st.jobs
    ensures var server := st.jobs[t].origin.server;
      && (st.db.tasks[t].kind.Delete? ==> server !in st.db.servers)
      && (st.db.tasks[t].kind.Provision? && server in st.db.servers ==> st.db.servers[server].container.Some?)
  {
    hide Invariant, Core, Containers, Enabled, Apply, JobOk;
    var states: seq<State>, steps: seq<Step> :| IsRun(states, steps) && states[|steps|] == st;
    RunKeepsSuccesses(states, steps, |steps|);
    RunKeepsInvariant(states, steps, |steps|);
    Parts(st);
    TaskKind(st, t);
  }

  lemma TaskKind(st: State, t: nat)
    requires Core(st) && t in st.db.tasks
    ensures t in st.jobs && st.jobs[t].kind == st.db.tasks[t].kind
  {
    JobOf(st, t);
  }
}
