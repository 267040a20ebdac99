/** A job from its first transaction to its end, with everyone else running in between. */
module Scheduler {
  import opened Wrappers
  import opened Rows
  import opened Access
  import opened Repositories
  import opened NodeSelector
  import opened Agent
  import opened NodeAgentClient
  import opened Jobs
  import opened Protocol
  import opened JobInvariant
  import opened ContainerSteps
  import opened BackupInvariant
  import opened BackupSafety
  import opened Runs
  import opened Placement
  import opened TaskMachine
  import opened Outcomes
  import opened Worker
  import Api

  /** An id no container has had. */
  method UnusedId(born: map<nat, Container>) returns (id: nat)
    ensures id !in born
  {
    id := 0;
    var rest := born.Keys;
    while rest != {}
      invariant rest <= born.Keys
      invariant forall c :: c in born && c !in rest ==> c < id
      decreases |rest|
    {
      var c :| c in rest;
      if c >= id { id := c + 1; }
      rest := rest - {c};
    }
  }

  /** The owner's request whose job is waiting commits. */
  method CommitRequest(p: Panel, task: nat, owner: nat, resources: Resources)
    requires p.Valid() && Uncommitted(p.St(), task) && MayCommit(p.db.View(), p.jobs[task]) && NonNegative(resources)
    modifies p.db
    ensures p.Valid()
  {
    hide Reachable, Committed;
    var Origin(server, backup) := p.jobs[task].origin;
    match p.jobs[task].kind
    case Provision => var _ := Api.Create(p, task, server, owner, resources, true, false);
    case Delete => var _ := Api.RequestDelete(p, task, server, Some(Owner));
    case Backup => var _ := Api.RequestBackup(p, task, server, Some(Owner));
    case Restore => var _ := Api.RequestRestore(p, task, backup, Some(Owner));
    case kind => var _ := Api.RequestAction(p, task, server, kind, Some(Owner));
  }

  /** The step, if it is possible now and not one of `except`. */
  method Perform(p: Panel, step: Step, except: nat)
    requires p.Valid()
    modifies p, p.db
    ensures p.Valid()
    ensures except in old(p.jobs) ==> except in p.jobs && p.jobs[except] == old(p.jobs)[except]
  {
    hide Reachable, NextTx, Committed;
    match step
    case Enqueue(task, kind, origin) =>
      if task !in p.jobs && (kind.Provision? ==> origin.server !in p.made)
         && (kind.Backup? ==> origin.backup !in p.ordered) {
        Api.Enqueue(p, task, kind, origin);
      }
    case Commit(task, owner, resources) =>
      if Uncommitted(p.St(), task) && MayCommit(p.db.View(), p.jobs[task]) && NonNegative(resources) {
        CommitRequest(p, task, owner, resources);
      }
    case Patch(server, resources) =>
      if server in p.db.servers && p.db.servers[server].status.Stopped? && NonNegative(resources) {
        var _ := Api.RequestPatch(p, server, Some(Owner), resources);
      }
    case AddNode(node, row) =>
      if node !in p.hosts && row.capacity.cpu > 0.0 && row.capacity.mem > 0 {
        var _ := Api.AddNode(p, node, row, false);
      }
    case RemoveNode(node) =>
      var _ := Api.RemoveNode(p, node);
    case PatchNode(node, endpoint, status, capacity) =>
      if capacity.cpu > 0.0 && capacity.mem > 0 { var _ := Api.UpdateNode(p, node, endpoint, status, capacity); }
    case Transact(task, _, silent) =>
      if task != except && task in p.jobs && !p.jobs[task].phase.Calling? && !p.jobs[task].phase.Ended? {
        var _ := p.Transact(task, silent);
      }
    case Attempt(task, net, id, size) =>
      if task != except && task in p.jobs && p.jobs[task].phase.Calling? && PossibleNet(net) && id !in p.cloud.born {
        p.Attempt(task, net, id, size);
      }
    case Throw(task) =>
      if task != except && task in p.jobs && Guarded(p.jobs[task].phase) { p.Throw(task); }
    case Late(stray, id, size) =>
      if stray in p.strays && id !in p.cloud.born { p.ServeLate(stray, id, size); }
  }

  /** Any number of steps of anyone but the job of `task`. */
  method Others(p: Panel, task: nat)
    requires p.Valid() && task in p.jobs
    modifies p, p.db
    ensures p.Valid() && task in p.jobs && p.jobs[task] == old(p.jobs)[task]
  {
    hide p.Valid;
    var n: nat := *;
    while n > 0
      invariant p.Valid() && task in p.jobs && p.jobs[task] == old(p.jobs)[task]
      decreases n
    {
      var step: Step := *;
      Perform(p, step, task);
      n := n - 1;
    }
  }

  /** One step of the job: an exception where its code can raise, an attempt at the request it is
      waiting for, whatever the network makes of it, or its next transaction. */
  method Advance(p: Panel, task: nat)
    requires p.Valid() && task in p.jobs && !p.jobs[task].phase.Ended?
    modifies p, p.db
    ensures p.Valid() && task in p.jobs && SameJob(old(p.jobs)[task], p.jobs[task])
    ensures Measure(p.jobs[task]) < Measure(old(p.jobs)[task])
  {
    hide Reachable, Measure, NextTx, React, Serve;
    ghost var before := p.St();
    var raises: bool, silent: bool, net: Net, size: nat := *, *, *, *;
    KindsOf(before, task);
    if raises && Guarded(p.jobs[task].phase) {
      StepShortens(before, Step.Throw(task), task);
      p.Throw(task);
    } else if p.jobs[task].phase.Calling? {
      var id := UnusedId(p.cloud.born);
      if !PossibleNet(net) { net := Lost(false); }
      StepShortens(before, Step.Attempt(task, net, id, size), task);
      SameLocals(before.jobs[task], Seen(net, Serve(before.cloud, before.jobs[task].phase.endpoint,
                                                    before.jobs[task].phase.request, id, size, false).1));
      p.Attempt(task, net, id, size);
    } else {
      var choice := p.Transact(task, silent);
      SameJobAfter(before, task, choice, silent);
      StepShortens(before, Step.Transact(task, choice, silent), task);
    }
  }

  lemma SameJobAfter(st: State, task: nat, choice: Option<nat>, silent: bool)
    requires Reachable(st) && Enabled(st, Step.Transact(task, choice, silent))
    ensures SameJob(st.jobs[task], Apply(st, Step.Transact(task, choice, silent)).jobs[task])
  {
    hide Reachable, Invariant, NextTx, SelectorMayReturn;
    ReachableInvariant(st);
    Parts(st);
    TxSameJob(st, task, choice, silent);
  }

  /** The job runs to its end under any interference. If it found its server, its task is finished;
      a delete that succeeded left no row, a provision that succeeded left the container recorded,
      and a backup row says what its task says. */
  method RunJob(p: Panel, task: nat)
    requires p.Valid() && task in p.jobs && p.jobs[task].phase.Queued?
    modifies p, p.db
    ensures p.Valid() && task in p.jobs && p.jobs[task].phase.Ended? && SameJob(old(p.jobs)[task], p.jobs[task])
    ensures task in p.db.tasks && p.jobs[task].server.Some? ==> Terminal(p.db.tasks[task].status)
    ensures task in p.db.tasks && p.db.tasks[task].status.Succeeded? ==>
      var server := p.jobs[task].origin.server;
      && (p.jobs[task].kind.Delete? ==> server !in p.db.servers)
      && (p.jobs[task].kind.Provision? && server in p.db.servers ==> p.db.servers[server].container.Some?)
    ensures var backup := p.jobs[task].origin.backup;
      p.jobs[task].kind.Backup? && backup in p.db.backups ==>
        task in p.db.tasks && InStep(p.db.backups[backup].status, p.db.tasks[task].status)
  {
    hide Reachable;
    while !p.jobs[task].phase.Ended?
      invariant p.Valid() && task in p.jobs && SameJob(old(p.jobs)[task], p.jobs[task])
      decreases Measure(p.jobs[task])
    {
      Others(p, task);
      Advance(p, task);
    }
    Ending(p.St(), task);
  }

  lemma Ending(st: State, task: nat)
    requires Reachable(st) && task in st.jobs && st.jobs[task].phase.Ended?
    ensures task in st.db.tasks && st.jobs[task].server.Some? ==> Terminal(st.db.tasks[task].status)
    ensures task in st.db.tasks && st.db.tasks[task].status.Succeeded? ==>
      var server := st.jobs[task].origin.server;
      && (st.jobs[task].kind.Delete? ==> server !in st.db.servers)
      && (st.jobs[task].kind.Provision? && server in st.db.servers ==> st.db.servers[server].container.Some?)
    ensures var backup := st.jobs[task].origin.backup;
      st.jobs[task].kind.Backup? && backup in st.db.backups ==>
        task in st.db.tasks && InStep(st.db.backups[backup].status, st.db.tasks[task].status)
  {
    hide Reachable, Invariant, InStep;
    ReachableInvariant(st);
    Parts(st);
    if task in st.db.tasks {
      EndedJobs(st, task);
      TaskKind(st, task);
      if st.db.tasks[task].status.Succeeded? { SucceededMeans(st, task); }
    }
    if st.jobs[task].kind.Backup? && st.jobs[task].origin.backup in st.db.backups {
      BackupFollowsTask(st, st.jobs[task].origin.backup);
      OrderedBy(st, task);
    }
  }

  lemma OrderedBy(st: State, task: nat)
    requires Invariant(st) && task in st.jobs && st.jobs[task].kind.Backup?
    ensures st.jobs[task].origin.backup in st.ordered && st.ordered[st.jobs[task].origin.backup] == task
  {
  }
}
