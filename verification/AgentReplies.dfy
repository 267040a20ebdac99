/** What a job makes of an answer, what an attempt does to an agent, and what must have been answered
    before a task can have succeeded. Status codes are written out. */
module AgentReplies {
  import opened Wrappers
  import opened Rows
  import opened Agent
  import opened NodeAgentClient
  import opened Jobs
  import opened Protocol
  import opened JobInvariant
  import opened CoreInvariant
  import opened ContainerSteps
  import opened Capacity
  import opened Runs
  import opened TaskMachine
  import opened Outcomes

  // ----- reacting to an outcome

  /** The code that arrived, or -1 for a transport error. */
  function Code(outcome: Outcome): int {
    if outcome.Arrived? then outcome.answer.code else -1
  }

  /** The first two of the three attempts are repeated on a 5xx, a failed connect and a read timeout. */
  predicate Repeats(attempt: nat, outcome: Outcome) {
    attempt < 2 && (outcome == Transient || Code(outcome) >= 500)
  }

  /** What is left when an outcome is no success: the same request again, or the failure handler. */
  predicate Unsuccessful(job: Job, outcome: Outcome, after: Job)
    requires job.phase.Calling?
  {
    var Calling(node, endpoint, request, attempt) := job.phase;
    after == if Repeats(attempt, outcome) then job.(phase := Calling(node, endpoint, request, attempt + 1))
             else job.(phase := Failing)
  }

  /** An action, a backup or a restore is done when a 200 arrives, and by nothing else. */
  lemma DoneBy200(job: Job, outcome: Outcome)
    requires job.phase.Calling?
    requires job.phase.request.ActOn? || job.phase.request.RunBackup? || job.phase.request.RunRestore?
    ensures Code(outcome) == 200 ==> React(job, outcome) == job.(phase := Closing(outcome.answer.size))
    ensures Code(outcome) != 200 ==> Unsuccessful(job, outcome, React(job, outcome))
  {
  }

  /** A 201 leads to the inspection of the container it names, at the same agent. */
  lemma CreatedBy201(job: Job, outcome: Outcome)
    requires job.phase.Calling? && job.phase.request.CreateContainer?
    ensures Code(outcome) == 201 ==>
      React(job, outcome) ==
        job.(phase := Calling(job.phase.node, job.phase.endpoint, InspectContainer(outcome.answer.id), 0))
    ensures Code(outcome) != 201 ==> Unsuccessful(job, outcome, React(job, outcome))
  {
  }

  /** A 200 leads to the placement of the container that was inspected. */
  lemma InspectedBy200(job: Job, outcome: Outcome)
    requires job.phase.Calling? && job.phase.request.InspectContainer?
    ensures Code(outcome) == 200 ==>
      React(job, outcome) == job.(phase := Placing(job.phase.node, job.phase.request.container))
    ensures Code(outcome) != 200 ==> Unsuccessful(job, outcome, React(job, outcome))
  {
  }

  /** A removal is confirmed by a 204 or a 404. */
  lemma RemovedBy204Or404(job: Job, outcome: Outcome)
    requires job.phase.Calling? && job.phase.request.RemoveContainer?
    ensures Code(outcome) == 204 || Code(outcome) == 404 ==>
      React(job, outcome) == job.(phase := Closing(outcome.answer.size))
    ensures Code(outcome) != 204 && Code(outcome) != 404 ==> Unsuccessful(job, outcome, React(job, outcome))
  {
  }

  // ----- what one request does to the agents

  /** The agent at the endpoint has the container, running or not. */
  predicate Has(cloud: Cloud, endpoint: nat, container: nat) {
    container in cloud.live && container in cloud.born && cloud.born[container].endpoint == endpoint
  }

  ghost predicate SameName(cloud: Cloud, endpoint: nat, name: nat) {
    exists c :: Has(cloud, endpoint, c) && cloud.born[c].name == name
  }

  /** A container was once made there for the server, and with it its volume. */
  ghost predicate HasVolume(cloud: Cloud, endpoint: nat, volume: nat) {
    exists c :: c in cloud.born && cloud.born[c].endpoint == endpoint && cloud.born[c].name == volume
  }

  /** Whether the agent can do what is asked. */
  ghost predicate Can(cloud: Cloud, endpoint: nat, request: Request) {
    match request
    case CreateContainer(name) => !SameName(cloud, endpoint, name)
    case InspectContainer(c) => Has(cloud, endpoint, c)
    case ActOn(c, _) => Has(cloud, endpoint, c)
    case RemoveContainer(c) => Has(cloud, endpoint, c)
    case RunBackup(_, volume, _) => HasVolume(cloud, endpoint, volume)
    case RunRestore(_, volume, key) => HasVolume(cloud, endpoint, volume) && key in cloud.objects
  }

  /** What it then changes: a create adds one container, a removal takes one away, a backup writes one
      object, and the other three requests change nothing. */
  ghost predicate Does(cloud: Cloud, request: Request, endpoint: nat, id: nat, size: nat, late: bool, after: Cloud) {
    match request
    case CreateContainer(name) =>
      after.born == cloud.born[id := Container(endpoint, name, late)] && after.live == cloud.live + {id}
      && after.objects == cloud.objects
    case RemoveContainer(c) =>
      after.born == cloud.born && after.live == cloud.live - {c} && after.objects == cloud.objects
    case RunBackup(_, volume, key) =>
      after.born == cloud.born && after.live == cloud.live
      && after.objects == cloud.objects[key := Object(volume, size, late)]
    case _ => after == cloud
  }

  /** An agent that can does it and says 201 with the new id, 204, or 200 with the size; one that
      cannot changes nothing and says 409, 404 or 503. */
  lemma ServeInFull(cloud: Cloud, endpoint: nat, request: Request, id: nat, size: nat, late: bool)
    ensures var (after, answer) := Serve(cloud, endpoint, request, id, size, late);
      && (Can(cloud, endpoint, request) ==> Does(cloud, request, endpoint, id, size, late, after))
      && (!Can(cloud, endpoint, request) ==> after == cloud)
      && (Can(cloud, endpoint, request) ==>
            match request
            case CreateContainer(_) => answer.code == 201 && answer.id == id
            case RemoveContainer(_) => answer.code == 204
            case RunBackup(_, _, _) => answer.code == 200 && answer.size == size
            case RunRestore(_, _, key) => answer.code == 200 && answer.size == cloud.objects[key].size
            case _ => answer.code == 200)
      && (!Can(cloud, endpoint, request) ==>
            match request
            case CreateContainer(_) => answer.code == 409
            case RunRestore(_, volume, _) => answer.code == if HasVolume(cloud, endpoint, volume) then 503 else 404
            case _ => answer.code == 404)
  {
    if request.CreateContainer? {
      SameNames(cloud, endpoint, request.name);
    }
  }

  lemma SameNames(cloud: Cloud, endpoint: nat, name: nat)
    ensures NameTaken(cloud, endpoint, name) <==> SameName(cloud, endpoint, name)
  {
    if NameTaken(cloud, endpoint, name) {
      var c :| c in cloud.live && c in cloud.born && cloud.born[c].endpoint == endpoint && cloud.born[c].name == name;
      assert Has(cloud, endpoint, c);
    }
  }

  // ----- one attempt

  /** The attempt reaches the agent and is carried out in time. */
  predicate Reaches(net: Net) {
    net == Reply || net == Lost(true) || net == Snapped(true) || (net.Fault? && net.executed)
  }

  /** An attempt changes no row. The agent changes exactly as it does for a request carried out in
      time; otherwise the request is left behind on its way, unless it was turned down. */
  lemma AttemptInFull(st: State, task: nat, net: Net, id: nat, size: nat)
    requires MayAttempt(st, task, net, id)
    ensures var Calling(_, endpoint, request, _) := st.jobs[task].phase;
      var after := Deliver(st, task, net, id, size);
      && after.db == st.db && after.jobs.Keys == st.jobs.Keys
      && (forall t :: t in st.jobs && t != task ==> after.jobs[t] == st.jobs[t])
      && (Reaches(net) && Can(st.cloud, endpoint, request) ==>
            Does(st.cloud, request, endpoint, id, size, false, after.cloud))
      && (!Reaches(net) || !Can(st.cloud, endpoint, request) ==> after.cloud == st.cloud)
      && after.strays == st.strays + if Reaches(net) || net.Refused? then {} else {Stray(task, endpoint, request)}
  {
    hide Serve, React, Seen;
    var job := st.jobs[task];
    ServeInFull(st.cloud, job.phase.endpoint, job.phase.request, id, size, false);
  }

  /** A job is done with its request by one attempt exactly when the agent's own answer arrives and
      the agent could do what it was asked; a removal is done also when there was nothing to remove. */
  lemma AttemptSucceeds(st: State, task: nat, net: Net, id: nat, size: nat)
    requires MayAttempt(st, task, net, id)
    ensures var Calling(node, endpoint, request, _) := st.jobs[task].phase;
      var phase := Deliver(st, task, net, id, size).jobs[task].phase;
      var done := net == Reply && (Can(st.cloud, endpoint, request) || request.RemoveContainer?);
      && (done ==>
            match request
            case CreateContainer(_) => phase == Calling(node, endpoint, InspectContainer(id), 0)
            case InspectContainer(c) => phase == Placing(node, c)
            case RunBackup(_, _, _) => phase == Closing(size)
            case RunRestore(_, _, key) => phase == Closing(st.cloud.objects[key].size)
            case _ => phase.Closing?)
      && (!done ==> phase == Failing || phase == st.jobs[task].phase.(attempt := st.jobs[task].phase.attempt + 1))
  {
    hide Serve, React, Can;
    var job := st.jobs[task];
    var (_, answer) := Serve(st.cloud, job.phase.endpoint, job.phase.request, id, size, false);
    ServeInFull(st.cloud, job.phase.endpoint, job.phase.request, id, size, false);
    var outcome := Seen(net, answer);
    match job.phase.request
    case CreateContainer(_) => CreatedBy201(job, outcome);
    case InspectContainer(_) => InspectedBy200(job, outcome);
    case RemoveContainer(_) => RemovedBy204Or404(job, outcome);
    case _ => DoneBy200(job, outcome);
  }

  /** Late: the same, marked as such, and nobody hears of it. */
  lemma LateInFull(st: State, stray: Stray, id: nat, size: nat)
    requires Enabled(st, Late(stray, id, size))
    ensures var after := Apply(st, Late(stray, id, size));
      && after == st.(cloud := after.cloud)
      && (Can(st.cloud, stray.endpoint, stray.request) ==>
            Does(st.cloud, stray.request, stray.endpoint, id, size, true, after.cloud))
      && (!Can(st.cloud, stray.endpoint, stray.request) ==> after.cloud == st.cloud)
  {
    hide Serve;
    ServeInFull(st.cloud, stray.endpoint, stray.request, id, size, true);
  }

  // ----- what a success rests on, over whole runs

  /** At this step the job's request for `container` was answered by an agent that could do it: it
      held the container, or the volume and, for a restore, the object. */
  ghost predicate Answered(st: State, step: Step, task: nat, container: nat) {
    && step.Attempt? && step.task == task && step.net == Reply && task in st.jobs && st.jobs[task].phase.Calling?
    && var Calling(_, endpoint, request, _) := st.jobs[task].phase;
       var Origin(server, backup) := st.jobs[task].origin;
       match st.jobs[task].kind
       case Backup =>
         request == RunBackup(container, server, Key(server, backup)) && HasVolume(st.cloud, endpoint, server)
       case Restore =>
         request == RunRestore(container, server, Key(server, backup)) && HasVolume(st.cloud, endpoint, server)
         && Key(server, backup) in st.cloud.objects
       case kind => request == ActOn(container, kind) && Has(st.cloud, endpoint, container)
  }

  predicate Waits(kind: Kind) {
    kind.Start? || kind.Stop? || kind.Restart? || kind.Backup? || kind.Restore?
  }

  lemma OnlyAnswersClose(st: State, step: Step, task: nat)
    requires Core(st) && Enabled(st, step) && task in st.jobs && Waits(st.jobs[task].kind)
    requires !st.jobs[task].phase.Closing? && Apply(st, step).jobs[task].phase.Closing?
    ensures st.jobs[task].container.Some? && Answered(st, step, task, st.jobs[task].container.value)
    ensures Apply(st, step).jobs[task].container == st.jobs[task].container
  {
    hide Core, Deliver, NextTx, Committed, SelectorMayReturn, Can;
    JobOf(st, task);
    match step
    case Transact(t, choice, silent) =>
      if t == task { TxNeverCloses(st.db, task, st.jobs[task], choice, silent); }
    case Attempt(t, net, id, size) =>
      AttemptInFull(st, t, net, id, size);
      if t == task {
        AttemptSucceeds(st, task, net, id, size);
        CanIsAnswered(st, step, task);
        AttemptKeepsContainer(st, task, net, id, size);
      }
    case _ =>
  }

  lemma AttemptKeepsContainer(st: State, task: nat, net: Net, id: nat, size: nat)
    requires MayAttempt(st, task, net, id)
    ensures Deliver(st, task, net, id, size).jobs[task].container == st.jobs[task].container
  {
    hide Serve, Seen;
  }

  lemma CanIsAnswered(st: State, step: Step, task: nat)
    requires step.Attempt? && step.task == task && step.net == Reply && task in st.jobs && Waits(st.jobs[task].kind)
    requires st.jobs[task].phase.Calling? && JobOk(st.jobs[task], Find(st.db.tasks, task))
    requires Can(st.cloud, st.jobs[task].phase.endpoint, st.jobs[task].phase.request)
    ensures st.jobs[task].container.Some? && Answered(st, step, task, st.jobs[task].container.value)
  {
  }

  lemma PhaseOf(job: Job, row: Option<TaskRow>)
    requires JobOk(job, row)
    ensures job.phase.Marked? || job.phase.Placing? ==> job.kind.Provision?
    ensures job.phase.Lookup? ==> job.kind.Delete?
  {
  }

  lemma TxNeverCloses(db: Db, task: nat, job: Job, choice: Option<nat>, silent: bool)
    requires !job.phase.Calling? && !job.phase.Ended? && Waits(job.kind) && JobOk(job, Find(db.tasks, task))
    ensures !NextTx(db, task, job, choice, silent).job.phase.Closing?
  {
    hide Begin, JobOk;
    PhaseOf(job, Find(db.tasks, task));
    if job.phase.Queued? {
      FirstPhases(db, task, job);
    }
  }

  lemma RunStarts(states: seq<State>, steps: seq<Step>)
    requires IsRun(states, steps)
    ensures states[0].jobs == map[] && states[0].db.tasks == map[]
  {
  }

  /** When a start, stop, restart, backup or restore is about to record its success, an agent has
      answered its request, for the container the job read, at an earlier step. */
  lemma {:induction false} ClosingWasAnswered(states: seq<State>, steps: seq<Step>, j: nat, task: nat)
    returns (i: nat)
    requires IsRun(states, steps) && j < |states| && task in states[j].jobs
    requires Waits(states[j].jobs[task].kind) && states[j].jobs[task].phase.Closing?
    ensures i < j && states[j].jobs[task].container.Some?
    ensures Answered(states[i], steps[i], task, states[j].jobs[task].container.value)
    decreases j
  {
    hide IsRun, Enabled, Apply, Invariant, Core, Answered;
    RunStarts(states, steps);
    RunStep(states, steps, j - 1);
    RunKeepsInvariant(states, steps, j - 1);
    Parts(states[j - 1]);
    ClosingBefore(states[j - 1], steps[j - 1], task);
    if states[j - 1].jobs[task].phase.Closing? {
      i := ClosingWasAnswered(states, steps, j - 1, task);
    } else {
      OnlyAnswersClose(states[j - 1], steps[j - 1], task);
      i := j - 1;
    }
  }

  /** A closing job was there before, and if it was closing then it is the same. */
  lemma ClosingBefore(st: State, step: Step, task: nat)
    requires Enabled(st, step) && task in Apply(st, step).jobs && Apply(st, step).jobs[task].phase.Closing?
    ensures task in st.jobs && st.jobs[task].kind == Apply(st, step).jobs[task].kind
    ensures st.jobs[task].phase.Closing? ==> Apply(st, step).jobs[task] == st.jobs[task]
  {
    hide NextTx, Committed, SelectorMayReturn, Serve, Seen;
    match step
    case Transact(t, choice, silent) =>
      if t == task { KindStays(st.db, task, st.jobs[task], choice, silent); }
    case _ =>
  }

  lemma KindStays(db: Db, task: nat, job: Job, choice: Option<nat>, silent: bool)
    requires !job.phase.Calling? && !job.phase.Ended?
    ensures NextTx(db, task, job, choice, silent).job.kind == job.kind
    ensures job.phase.Closing? ==> NextTx(db, task, job, choice, silent).job.phase.Ended?
  {
    hide Begin;
    if job.phase.Queued? {
      FirstPhases(db, task, job);
    }
  }

  lemma TxNeverSucceeds(db: Db, task: nat, job: Job, choice: Option<nat>, silent: bool)
    requires !job.phase.Calling? && !job.phase.Ended? && !job.phase.Closing? && Waits(job.kind)
    requires task in db.tasks && db.tasks[task].status != TaskStatus.Succeeded && JobOk(job, Some(db.tasks[task]))
    ensures var after := NextTx(db, task, job, choice, silent).db;
      task in after.tasks && after.tasks[task].status != TaskStatus.Succeeded
  {
    hide Begin, JobOk;
    PhaseOf(job, Some(db.tasks[task]));
    if job.phase.Queued? {
      FirstPhases(db, task, job);
    }
  }

  /** Of these tasks, none becomes succeeded but by the last transaction of its own job. */
  lemma OnlyClosingSucceeds(st: State, step: Step, t: nat)
    requires Core(st) && Enabled(st, step) && t in Apply(st, step).db.tasks
    requires Apply(st, step).db.tasks[t].status == TaskStatus.Succeeded && Waits(Apply(st, step).db.tasks[t].kind)
    requires !(t in st.db.tasks && st.db.tasks[t].status == TaskStatus.Succeeded)
    ensures step.Transact? && step.task == t && t in st.jobs && st.jobs[t].phase.Closing? && Waits(st.jobs[t].kind)
  {
    hide EachJobOk, HostsOk, RowsOk, Histories, NextTx, SelectorMayReturn, Deliver, Committed, JobOk;
    match step
    case Commit(task, owner, resources) => CommittedTask(st.db, task, st.jobs[task], owner, resources);
    case Attempt(task, net, id, size) => AttemptQuiet(st, task, net, id, size, 0);
    case Transact(task, choice, silent) =>
      TxKeepsJob(st.db, st.jobs, st.made, st.ordered, task, choice, silent);
      if task == t { OwnSucceeds(st, t, choice, silent); }
    case _ =>
  }

  lemma OwnSucceeds(st: State, t: nat, choice: Option<nat>, silent: bool)
    requires MayTransact(st, t) && Core(st) && t in st.db.tasks && st.db.tasks[t].status != TaskStatus.Succeeded
    ensures var after := NextTx(st.db, t, st.jobs[t], choice, silent).db;
      t in after.tasks && (after.tasks[t].status == TaskStatus.Succeeded && Waits(after.tasks[t].kind) ==>
                             st.jobs[t].phase.Closing? && Waits(st.jobs[t].kind))
  {
    hide EachJobOk, HostsOk, RowsOk, Histories, NextTx, SelectorMayReturn;
    JobOf(st, t);
    TxKeepsJob(st.db, st.jobs, st.made, st.ordered, t, choice, silent);
    if Waits(st.jobs[t].kind) && !st.jobs[t].phase.Closing? {
      TxNeverSucceeds(st.db, t, st.jobs[t], choice, silent);
    }
  }

  /** Over any run: behind every start, stop, restart, backup and restore that succeeded there is an
      attempt of its own job that an agent answered because it could do what was asked, for the
      container the job had read; the task is marked only after that. */
  lemma {:induction false} SucceededWasAnswered(states: seq<State>, steps: seq<Step>, j: nat, t: nat)
    returns (i: nat, k: nat)
    requires IsRun(states, steps) && j < |states| && t in states[j].db.tasks
    requires states[j].db.tasks[t].status == TaskStatus.Succeeded && Waits(states[j].db.tasks[t].kind)
    ensures i < k < j && steps[k].Transact? && steps[k].task == t && t in states[k].jobs
    ensures states[k].jobs[t].phase.Closing? && states[k].jobs[t].container.Some?
    ensures Answered(states[i], steps[i], t, states[k].jobs[t].container.value)
    decreases j
  {
    hide IsRun, Enabled, Apply, Invariant, Core, Answered;
    RunStarts(states, steps);
    RunStep(states, steps, j - 1);
    RunKeepsInvariant(states, steps, j - 1);
    Parts(states[j - 1]);
    if t in states[j - 1].db.tasks && states[j - 1].db.tasks[t].status == TaskStatus.Succeeded {
      StepMovesTask(states[j - 1], steps[j - 1], t);
      i, k := SucceededWasAnswered(states, steps, j - 1, t);
    } else {
      OnlyClosingSucceeds(states[j - 1], steps[j - 1], t);
      k := j - 1;
      i := ClosingWasAnswered(states, steps, k, t);
    }
  }

  // ----- what a placement rests on

  /** At this step the agent made the container for the server of the job, having none of its name. */
  ghost predicate CreatedFor(st: State, step: Step, task: nat, container: nat) {
    && step.Attempt? && step.task == task && step.net == Reply && step.id == container
    && task in st.jobs && st.jobs[task].phase.Calling?
    && st.jobs[task].phase.request == CreateContainer(st.jobs[task].origin.server)
    && !SameName(st.cloud, st.jobs[task].phase.endpoint, st.jobs[task].origin.server)
  }

  /** At this step the agent the job asked for the container showed that it had it. */
  predicate ShownBy(st: State, step: Step, task: nat, container: nat) {
    && step.Attempt? && step.task == task && step.net == Reply
    && task in st.jobs && st.jobs[task].phase.Calling?
    && st.jobs[task].phase.request == InspectContainer(container)
    && Has(st.cloud, st.jobs[task].phase.endpoint, container)
  }

  predicate Inspects(jobs: map<nat, Job>, task: nat, container: nat) {
    task in jobs && jobs[task].phase.Calling? && jobs[task].phase.request == InspectContainer(container)
  }

  predicate Places(jobs: map<nat, Job>, task: nat, container: nat) {
    task in jobs && jobs[task].phase.Placing? && jobs[task].phase.container == container
  }

  /** Where a first transaction can lead. */
  lemma FirstPhases(db: Db, task: nat, job: Job)
    ensures var phase := Begin(db, task, job).job.phase;
      && !phase.Placing? && (phase.Closing? ==> job.kind.Delete?)
      && (phase.Calling? ==> !phase.request.InspectContainer?)
    ensures Begin(db, task, job).job.kind == job.kind
    ensures task in db.tasks && db.tasks[task].status != TaskStatus.Succeeded && !job.kind.Delete? ==>
      task in Begin(db, task, job).db.tasks
      && Begin(db, task, job).db.tasks[task].status != TaskStatus.Succeeded
  {
    match job.kind
    case Provision =>
    case Delete =>
    case Backup =>
    case Restore =>
    case _ =>
  }

  lemma TxNeverInspects(db: Db, task: nat, job: Job, choice: Option<nat>, silent: bool)
    requires !job.phase.Calling? && !job.phase.Ended?
    ensures var phase := NextTx(db, task, job, choice, silent).job.phase;
      !phase.Placing? && !(phase.Calling? && phase.request.InspectContainer?)
  {
    hide Begin;
    if job.phase.Queued? {
      FirstPhases(db, task, job);
    }
  }

  lemma OnlyCreatesInspect(st: State, step: Step, task: nat, container: nat)
    requires Core(st) && Enabled(st, step)
    requires !Inspects(st.jobs, task, container) && Inspects(Apply(st, step).jobs, task, container)
    ensures CreatedFor(st, step, task, container)
  {
    hide EachJobOk, HostsOk, RowsOk, Histories, TasksHaveJobs, NextTx, SelectorMayReturn, Deliver, Committed, Can;
    match step
    case Attempt(t, net, id, size) =>
      AttemptInFull(st, t, net, id, size);
      if t == task {
        JobOf(st, task);
        AttemptSucceeds(st, task, net, id, size);
        CanCreate(st, task);
      }
    case Transact(t, choice, silent) => TxNeverInspects(st.db, t, st.jobs[t], choice, silent);
    case _ =>
  }

  lemma CanCreate(st: State, task: nat)
    requires task in st.jobs && st.jobs[task].phase.Calling? && JobOk(st.jobs[task], Find(st.db.tasks, task))
    requires st.jobs[task].phase.request.CreateContainer?
    ensures st.jobs[task].phase.request == CreateContainer(st.jobs[task].origin.server)
    ensures Can(st.cloud, st.jobs[task].phase.endpoint, st.jobs[task].phase.request) ==>
      !SameName(st.cloud, st.jobs[task].phase.endpoint, st.jobs[task].origin.server)
  {
  }

  lemma OnlyInspectedPlaces(st: State, step: Step, task: nat, container: nat)
    requires Enabled(st, step)
    requires !Places(st.jobs, task, container) && Places(Apply(st, step).jobs, task, container)
    ensures ShownBy(st, step, task, container)
  {
    hide NextTx, SelectorMayReturn, Deliver, Committed;
    match step
    case Attempt(t, net, id, size) =>
      AttemptInFull(st, t, net, id, size);
      if t == task { AttemptSucceeds(st, task, net, id, size); }
    case Transact(t, choice, silent) => TxNeverInspects(st.db, t, st.jobs[t], choice, silent);
    case _ =>
  }

  lemma {:induction false} InspectedWasCreated(states: seq<State>, steps: seq<Step>, j: nat, task: nat,
                                               container: nat) returns (i: nat)
    requires IsRun(states, steps) && j < |states| && Inspects(states[j].jobs, task, container)
    ensures i < j && CreatedFor(states[i], steps[i], task, container)
    decreases j
  {
    hide IsRun, Enabled, Apply, Invariant, Core, CreatedFor;
    RunStarts(states, steps);
    RunStep(states, steps, j - 1);
    RunKeepsInvariant(states, steps, j - 1);
    Parts(states[j - 1]);
    if Inspects(states[j - 1].jobs, task, container) {
      i := InspectedWasCreated(states, steps, j - 1, task, container);
    } else {
      i := j - 1;
      OnlyCreatesInspect(states[i], steps[i], task, container);
    }
  }

  /** Over any run: a provision is about to record a container only after an agent answered that it
      had made it for this server, and after that one answered that it has it. */
  lemma {:induction false} PlacedWasCreated(states: seq<State>, steps: seq<Step>, j: nat, task: nat, container: nat)
    returns (created: nat, shown: nat)
    requires IsRun(states, steps) && j < |states| && Places(states[j].jobs, task, container)
    ensures created < shown < j
    ensures CreatedFor(states[created], steps[created], task, container)
    ensures ShownBy(states[shown], steps[shown], task, container)
    decreases j
  {
    hide IsRun, Enabled, Apply, CreatedFor;
    RunStarts(states, steps);
    RunStep(states, steps, j - 1);
    if Places(states[j - 1].jobs, task, container) {
      created, shown := PlacedWasCreated(states, steps, j - 1, task, container);
    } else {
      shown := j - 1;
      OnlyInspectedPlaces(states[shown], steps[shown], task, container);
      created := InspectedWasCreated(states, steps, shown, task, container);
    }
  }
}
