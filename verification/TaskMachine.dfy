/** The life of a task row, and the end of every job. */
module TaskMachine {
  import opened Wrappers
  import opened Rows
  import opened Repositories
  import opened Agent
  import opened NodeAgentClient
  import opened Jobs
  import opened Protocol
  import opened JobInvariant
  import opened CoreInvariant
  import opened ContainerSteps
  import opened Capacity
  import opened Runs
  import opened Witnesses

  /** How a committed task row may change: forward only, and a finished one not at all, but for
      the `server_id` a deleted server takes away. `early` is the job's. */
  predicate TaskMove(row: TaskRow, after: TaskRow, early: bool) {
    && after.kind == row.kind && after.backup == row.backup
    && (after.server == row.server || after.server.None?)
    && (row.status.Running? ==> after.status.Running? || Terminal(after.status))
    && (Terminal(row.status) ==> after == row.(server := after.server))
    && (after.finished <==> Terminal(after.status))
    && (Terminal(after.status) || after.status.Running? ==> after.started == !early)
    && (row.started ==> after.started)
  }

  lemma RowMoves(job: Job, row: TaskRow, job': Job, after: TaskRow)
    requires JobOk(job, Some(row)) && JobOk(job', Some(after)) && SameJob(job, job') && !job.phase.Ended?
    requires after.server == row.server || after.server.None?
    requires job.phase.Queued? || job'.early == job.early
    requires !job'.phase.Queued?
    ensures TaskMove(row, after, job'.early)
  {
  }

  lemma RowStays(job: Job, row: TaskRow, after: TaskRow)
    requires JobOk(job, Some(row)) && (after == row || after == row.(server := None))
    ensures TaskMove(row, after, job.early)
  {
  }

  lemma TxKeepsServerId(db: Db, task: nat, job: Job, choice: Option<nat>, silent: bool)
    requires !job.phase.Calling? && !job.phase.Ended? && task in db.tasks
    ensures var tx := NextTx(db, task, job, choice, silent);
      && task in tx.db.tasks
      && (tx.db.tasks[task].server == db.tasks[task].server || tx.db.tasks[task].server.None?)
  {
    hide NextTx, Tame;
    if job.kind.Delete? && job.phase.Closing? {
      CloseDeleteServerId(db, task, job);
      assert NextTx(db, task, job, choice, silent) == Close(db, task, job) by { NextIsClose(db, task, job, choice,
        silent); }
    } else {
      TxTame(db, task, job, choice, silent);
      TameServerId(db, NextTx(db, task, job, choice, silent).db, task);
    }
  }

  lemma NextIsClose(db: Db, task: nat, job: Job, choice: Option<nat>, silent: bool)
    requires job.phase.Closing?
    ensures NextTx(db, task, job, choice, silent) == Close(db, task, job)
  {
  }

  lemma TameServerId(db: Db, after: Db, task: nat)
    requires Tame(db, after, task) && task in db.tasks
    ensures task in after.tasks && after.tasks[task].server == db.tasks[task].server
  {
  }

  lemma CloseDeleteServerId(db: Db, task: nat, job: Job)
    requires job.phase.Closing? && job.kind.Delete? && task in db.tasks
    ensures var after := Close(db, task, job).db;
      && task in after.tasks
      && (after.tasks[task].server == db.tasks[task].server || after.tasks[task].server.None?)
  {
  }

  lemma TxEarly(db: Db, task: nat, job: Job, choice: Option<nat>, silent: bool)
    requires !job.phase.Calling? && !job.phase.Ended?
    ensures var tx := NextTx(db, task, job, choice, silent);
      !tx.job.phase.Queued? && (job.phase.Queued? || tx.job.early == job.early)
  {
    match job.phase
    case Queued =>
      match job.kind {
        case Provision =>
        case Delete =>
        case Backup =>
        case Restore =>
        case _ =>
      }
    case _ =>
  }

  lemma TransactMovesTask(st: State, task: nat, choice: Option<nat>, silent: bool, t: nat)
    requires MayTransact(st, task) && Core(st) && t in st.db.tasks
    ensures var tx := NextTx(st.db, task, st.jobs[task], choice, silent);
      && t in tx.db.tasks && t in st.jobs
      && TaskMove(st.db.tasks[t], tx.db.tasks[t], st.jobs[task := tx.job][t].early)
  {
    hide NextTx, SelectorMayReturn, EachJobOk, RowsOk, Histories, HostsOk, JobOk, TaskMove;
    var job := st.jobs[task];
    var tx := NextTx(st.db, task, job, choice, silent);
    JobOf(st, task);
    JobOf(st, t);
    TxKeepsJob(st.db, st.jobs, st.made, st.ordered, task, choice, silent);
    if t == task {
      TxKeepsServerId(st.db, task, job, choice, silent);
      TxEarly(st.db, task, job, choice, silent);
      RowMoves(job, st.db.tasks[t], tx.job, tx.db.tasks[t]);
    } else {
      RowStays(st.jobs[t], st.db.tasks[t], tx.db.tasks[t]);
    }
  }

  /** No step moves a task backwards or changes a finished one. */
  lemma StepMovesTask(st: State, step: Step, t: nat)
    requires Core(st) && Enabled(st, step) && t in st.db.tasks
    ensures var after := Apply(st, step);
      && t in after.db.tasks && t in after.jobs
      && TaskMove(st.db.tasks[t], after.db.tasks[t], after.jobs[t].early)
  {
    hide EachJobOk, RowsOk, Histories, HostsOk, JobOk, TaskMove, NextTx, Committed, Deliver, SelectorMayReturn;
    JobOf(st, t);
    match step
    case Transact(task, choice, silent) => TransactMovesTask(st, task, choice, silent, t);
    case Commit(task, owner, resources) =>
      CommittedTask(st.db, task, st.jobs[task], owner, resources);
      RowStays(st.jobs[t], st.db.tasks[t], st.db.tasks[t]);
    case Attempt(task, net, id, size) =>
      AttemptEarly(st, task, net, id, size, t);
      RowStays(st.jobs[t], st.db.tasks[t], st.db.tasks[t]);
    case _ =>
      RowStays(st.jobs[t], st.db.tasks[t], st.db.tasks[t]);
  }

  lemma AttemptEarly(st: State, task: nat, net: Net, id: nat, size: nat, t: nat)
    requires task in st.jobs && st.jobs[task].phase.Calling? && t in st.jobs
    ensures var after := Deliver(st, task, net, id, size);
      after.db == st.db && t in after.jobs && after.jobs[t].early == st.jobs[t].early
  {
    hide Serve, Seen;
  }

  /** Over a whole run: once finished, a task keeps its status and both timestamps for ever. */
  lemma {:induction false} FinishedIsFinal(states: seq<State>, steps: seq<Step>, i: nat, j: nat, t: nat)
    requires IsRun(states, steps) && i <= j < |states|
    requires t in states[i].db.tasks && Terminal(states[i].db.tasks[t].status)
    ensures t in states[j].db.tasks
    ensures states[j].db.tasks[t] == states[i].db.tasks[t].(server := states[j].db.tasks[t].server)
    decreases j
  {
    hide Invariant, Core, Enabled, Apply;
    if i < j {
      FinishedIsFinal(states, steps, i, j - 1, t);
      RunKeepsInvariant(states, steps, j - 1);
      Parts(states[j - 1]);
      StepMovesTask(states[j - 1], steps[j - 1], t);
    }
  }

  /** A finished task was started, except exactly when its job's first transaction ran before the
      request that created the task was committed: `mark_running` then finds no row. */
  lemma StartedUnlessEarly(st: State, t: nat)
    requires Reachable(st) && t in st.db.tasks && Terminal(st.db.tasks[t].status)
    ensures t in st.jobs && (st.db.tasks[t].started <==> !st.jobs[t].early)
    ensures st.jobs[t].early ==> st.jobs[t].kind.Provision?
  {
    hide IsRun;
    ReachableInvariant(st);
    Parts(st);
    JobOf(st, t);
    TerminalJob(st.jobs[t], st.db.tasks[t]);
  }

  lemma TerminalJob(job: Job, row: TaskRow)
    requires JobOk(job, Some(row)) && Terminal(row.status)
    ensures row.started <==> !job.early
    ensures job.early ==> job.kind.Provision?
  {
  }

  ghost predicate SkipsRunning(st: State, t: nat, early: bool) {
    && Reachable(st) && t in st.db.tasks && Terminal(st.db.tasks[t].status) && !st.db.tasks[t].started
    && t in st.jobs && st.jobs[t].early == early
  }

  /** That every finished task was started holds over all runs if and only if its job did not run
      ahead of the commit. */
  lemma FinishedWasStarted(early: bool)
    ensures (forall st: State, t: nat :: !SkipsRunning(st, t, early)) <==> !early
  {
    hide Reachable;
    if early {
      var st := FailedUnstarted();
      assert SkipsRunning(st, 0, true);
    } else {
      forall st: State, t: nat ensures !SkipsRunning(st, t, false) {
        if Reachable(st) && t in st.db.tasks && Terminal(st.db.tasks[t].status) {
          StartedUnlessEarly(st, t);
        }
      }
    }
  }

  /** Which tasks a finished job leaves open: a start, stop, restart or delete that found no
      server, and any job that was over before its task was committed. */
  lemma EndedJobs(st: State, t: nat)
    requires Reachable(st) && t in st.db.tasks && t in st.jobs && st.jobs[t].phase.Ended?
    ensures st.jobs[t].server.Some? ==> Terminal(st.db.tasks[t].status)
    ensures Silent(st.jobs[t].kind) ==> (Terminal(st.db.tasks[t].status) <==> st.jobs[t].server.Some?)
    ensures !Silent(st.jobs[t].kind) && !st.jobs[t].early ==> Terminal(st.db.tasks[t].status)
  {
    hide Reachable, Invariant, JobsOk, RowsOk, HostsOk;
    ReachableInvariant(st);
    Parts(st);
    JobOf(st, t);
  }

  // ----- termination

  function AttemptsLeft(attempt: nat): nat {
    if attempt < MAX_RETRIES then MAX_RETRIES - attempt else 0
  }

  /** How many more steps a job can take at most: transactions left plus attempts left. */
  function Measure(job: Job): nat {
    match job.phase
    case Queued => 13
    case Marked => 12
    case Lookup(_) => 8
    case Calling(_, _, request, attempt) => (if request.CreateContainer? then 8 else 4) + AttemptsLeft(attempt)
    case Placing(_, _) => 3
    case Closing(_) => 2
    case Orphan => 1
    case Failing => 1
    case Ended => 0
  }

  predicate IsStepOf(step: Step, task: nat) {
    (step.Transact? || step.Attempt? || step.Throw?) && step.task == task
  }

  lemma TxShortens(db: Db, task: nat, job: Job, choice: Option<nat>, silent: bool)
    requires !job.phase.Calling? && !job.phase.Ended?
    ensures Measure(NextTx(db, task, job, choice, silent).job) < Measure(job)
  {
    match job.phase
    case Queued =>
      match job.kind {
        case Provision =>
        case Delete =>
        case Backup =>
        case Restore =>
        case _ =>
      }
    case _ =>
  }

  lemma ReactShortens(job: Job, outcome: Outcome)
    requires job.phase.Calling?
    ensures Measure(React(job, outcome)) < Measure(job)
  {
  }

  /** A step of a job brings it closer to its end; no other step touches it. */
  lemma StepShortens(st: State, step: Step, task: nat)
    requires Enabled(st, step) && task in st.jobs
    ensures task in Apply(st, step).jobs
    ensures Measure(Apply(st, step).jobs[task]) + (if IsStepOf(step, task) then 1 else 0) <= Measure(st.jobs[task])
  {
    hide NextTx, Committed, SelectorMayReturn, Serve, Seen, React, Measure;
    match step
    case Transact(t, choice, silent) => TxShortens(st.db, t, st.jobs[t], choice, silent);
    case Attempt(t, net, id, size) =>
      ReactShortens(st.jobs[t], Seen(net, Serve(st.cloud, st.jobs[t].phase.endpoint, st.jobs[t].phase.request, id,
        size, false).1));
    case Throw(t) => ThrowShortens(st.jobs[t]);
    case _ =>
  }

  lemma ThrowShortens(job: Job)
    requires Guarded(job.phase)
    ensures Measure(job.(phase := Failing)) < Measure(job)
  {
  }

  function StepsOf(steps: seq<Step>, task: nat): nat {
    if steps == [] then 0
    else StepsOf(steps[..|steps| - 1], task) + (if IsStepOf(steps[|steps| - 1], task) then 1 else 0)
  }

  lemma {:induction false} StepsAndMeasure(states: seq<State>, steps: seq<Step>, i: nat, task: nat)
    requires IsRun(states, steps) && i <= |steps|
    ensures StepsOf(steps[..i], task) + (if task in states[i].jobs then Measure(states[i].jobs[task]) else 13) <= 13
  {
    hide Apply, Measure;
    if i > 0 {
      var st, step := states[i - 1], steps[i - 1];
      StepsAndMeasure(states, steps, i - 1, task);
      assert steps[..i][..i - 1] == steps[..i - 1];
      if task in st.jobs {
        StepShortens(st, step, task);
      } else {
        NewJobMeasure(st, step, task);
      }
    }
  }

  lemma NewJobMeasure(st: State, step: Step, task: nat)
    requires Enabled(st, step) && task !in st.jobs
    ensures !IsStepOf(step, task)
    ensures task in Apply(st, step).jobs ==> Measure(Apply(st, step).jobs[task]) == 13
  {
    hide NextTx, Committed, SelectorMayReturn, Serve, Seen, React;
  }

  /** Every job ends: in any run, whatever the others do, it takes at most 13 steps, and after 13
      it is over. */
  lemma JobsEnd(states: seq<State>, steps: seq<Step>, task: nat)
    requires IsRun(states, steps)
    ensures StepsOf(steps, task) <= 13
    ensures StepsOf(steps, task) == 13 ==> task in states[|steps|].jobs && states[|steps|].jobs[task].phase.Ended?
  {
    hide Apply, Enabled;
    StepsAndMeasure(states, steps, |steps|, task);
    assert steps[..|steps|] == steps;
    StepsNeedJob(states, steps, |steps|, task);
  }

  lemma {:induction false} StepsNeedJob(states: seq<State>, steps: seq<Step>, i: nat, task: nat)
    requires IsRun(states, steps) && i <= |steps|
    ensures StepsOf(steps[..i], task) > 0 ==> task in states[i].jobs
  {
    hide Apply;
    if i > 0 {
      StepsNeedJob(states, steps, i - 1, task);
      assert steps[..i][..i - 1] == steps[..i - 1];
      if task in states[i - 1].jobs {
        StepShortens(states[i - 1], steps[i - 1], task);
      } else {
        NewJobMeasure(states[i - 1], steps[i - 1], task);
      }
    }
  }
}
