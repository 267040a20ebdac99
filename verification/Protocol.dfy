/** The step machine: one step per API request, per committed worker transaction and per
    HTTP attempt, interleaved in any order. */
module Protocol {
  import opened Wrappers
  import opened Rows
  import opened Repositories
  import opened Agent
  import opened NodeAgentClient
  import opened Jobs
  import opened NodeSelector

  /** A request an attempt has sent for a job, on its way to the agent when the client gave up. */
  datatype Stray = Stray(task: nat, endpoint: nat, request: Request)

  /** `jobs` is keyed by task id, so a task has at most one job. Three histories remember the
      ids ever issued: `made` the provision task of each server, `ordered` the backup task of
      each backup, `hosts` the endpoint of each node, None once it has been patched. */
  datatype State = State(db: Db, jobs: map<nat, Job>, cloud: Cloud, strays: set<Stray>,
                         made: map<nat, nat>, ordered: map<nat, nat>, hosts: map<nat, Option<nat>>)

  const Initial := State(Db(map[], map[], map[], map[], []), map[], Cloud(map[], {}, map[]), {}, map[], map[], map[])

  predicate Allowed(kind: Kind, status: ServerStatus) {
    match kind
    case Start => status.Stopped? || status.Failed?
    case Stop => status.Running?
    case Restart => status.Running?
    case _ => false
  }

  // ----- API requests: the guard the service checks, and the rows it writes

  /** The job of `task` is queued or under way and the request's rows are not committed yet. */
  predicate Uncommitted(st: State, task: nat) {
    task in st.jobs && task !in st.db.tasks
  }

  predicate NonNegative(resources: Resources) {
    resources.cpu >= 0.0 && resources.mem >= 0
  }

  predicate MayCommit(db: Db, job: Job) {
    var Origin(server, backup) := job.origin;
    match job.kind
    case Provision => true
    case Delete => server in db.servers && !db.servers[server].status.Deleting?
    case Backup => server in db.servers
    case Restore => backup in db.backups && server in db.servers && db.backups[backup].server == server
                    && db.backups[backup].status.Available? && db.servers[server].status.Stopped?
    case kind => server in db.servers && Allowed(kind, db.servers[server].status)
  }

  /** `owner` and `resources` are those of the server a create request asks for. */
  function Committed(db: Db, task: nat, job: Job, owner: nat, resources: Resources): Db {
    var Origin(server, backup) := job.origin;
    match job.kind
    case Provision =>
      var row := ServerRow(owner, ServerStatus.Pending, None, None, resources);
      Record(CreateTask(db.(servers := db.servers[server := row]), task, server, Provision, None),
             Requested(Provision), Some(server))
    case Delete =>
      Record(CreateTask(SetStatus(db, Some(server), ServerStatus.Deleting), task, server, Delete, None),
             Requested(Delete), Some(server))
    case Backup =>
      var row := BackupRow(server, Key(server, backup), BackupStatus.Creating, 0);
      Record(CreateTask(db.(backups := db.backups[backup := row]), task, server, Backup, Some(backup)),
             Requested(Backup), Some(backup))
    case Restore =>
      Record(CreateTask(db, task, server, Restore, Some(backup)), Requested(Restore), Some(backup))
    case kind =>
      Record(CreateTask(db, task, server, kind, None), Requested(kind), Some(server))
  }

  function Enqueued(st: State, task: nat, kind: Kind, origin: Origin): State {
    st.(jobs := st.jobs[task := NewJob(kind, origin)],
        made := if kind.Provision? then st.made[origin.server := task] else st.made,
        ordered := if kind.Backup? then st.ordered[origin.backup := task] else st.ordered)
  }

  // ----- the worker

  /** When the provision job gets as far as asking the node selector, a node in `choice` is one the
      selector can return for the tables as the transaction sees them. None stands for its finding
      no node, and for anything else that raises once the server is known (a missing template). */
  ghost predicate SelectorMayReturn(db: Db, task: nat, choice: Option<nat>) {
    choice.Some? && task in db.tasks && db.tasks[task].server.Some? && db.tasks[task].server.value in db.servers ==>
      var server := db.tasks[task].server;
      var seen := SetStatus(db, server, ServerStatus.Provisioning);
      LeastLoaded(seen.servers, seen.nodes, db.servers[server.value].resources, choice)
  }

  function Run(st: State, task: nat, tx: Tx): State {
    st.(db := tx.db, jobs := st.jobs[task := tx.job])
  }

  /** What the client sees of an attempt the agent would answer with `answer`. */
  function Seen(net: Net, answer: Answer): Outcome {
    match net
    case Reply => Arrived(answer)
    case Fault(_, code) => Arrived(Answer(code, 0, 0))
    case Lost(_) => Transient
    case Snapped(_) => OtherError
    case Refused(code) => Arrived(Answer(code, 0, 0))
  }

  /** A request the agent has not carried out when the client gives up may reach it later. */
  function LeftBehind(task: nat, job: Job, net: Net): set<Stray>
    requires job.phase.Calling?
  {
    if Executed(net) || net.Refused? then {} else {Stray(task, job.phase.endpoint, job.phase.request)}
  }

  function Deliver(st: State, task: nat, net: Net, id: nat, size: nat): State
    requires task in st.jobs && st.jobs[task].phase.Calling?
  {
    var job := st.jobs[task];
    var (served, answer) := Serve(st.cloud, job.phase.endpoint, job.phase.request, id, size, false);
    st.(cloud := if Executed(net) then served else st.cloud,
        strays := st.strays + LeftBehind(task, job, net),
        jobs := st.jobs[task := React(job, Seen(net, answer))])
  }

  /** The transaction a job commits next; `choice` and `silent` are what the node selector and
      the update of a vanished row return. */
  function NextTx(db: Db, task: nat, job: Job, choice: Option<nat>, silent: bool): Tx
    requires !job.phase.Calling? && !job.phase.Ended?
  {
    match job.phase
    case Queued => Begin(db, task, job)
    case Marked => ProvisionSelect(db, task, job, choice)
    case Lookup(_) => Tx(db, ReadNode(db, job))
    case Orphan => Mourn(db, task, job)
    case Placing(_, _) => Place(db, job, silent)
    case Closing(_) => Close(db, task, job)
    case Failing => Fail(db, task, job)
  }

  datatype Step =
    // the API: the job is enqueued first, the rows appear when the request commits
    | Enqueue(task: nat, kind: Kind, origin: Origin)
    | Commit(task: nat, owner: nat, resources: Resources)
    | Patch(server: nat, resources: Resources)
    | AddNode(node: nat, row: NodeRow)
    | RemoveNode(node: nat)
    | PatchNode(node: nat, endpoint: nat, status: NodeStatus, capacity: Resources)
    // the worker: a transaction, an attempt at a request, or an exception under `try`
    | Transact(task: nat, choice: Option<nat>, silent: bool)
    | Attempt(task: nat, net: Net, id: nat, size: nat)
    | Throw(task: nat)
    // an agent: a request it carries out after its client gave up on it, once or more often
    | Late(stray: Stray, id: nat, size: nat)

  predicate MayTransact(st: State, task: nat) {
    task in st.jobs && !st.jobs[task].phase.Calling? && !st.jobs[task].phase.Ended?
  }

  predicate MayAttempt(st: State, task: nat, net: Net, id: nat) {
    task in st.jobs && st.jobs[task].phase.Calling? && PossibleNet(net) && id !in st.cloud.born
  }

  ghost predicate Enabled(st: State, step: Step) {
    match step
    case Enqueue(task, kind, origin) =>
      task !in st.jobs && (kind.Provision? ==> origin.server !in st.made)
      && (kind.Backup? ==> origin.backup !in st.ordered)
    case Commit(task, _, resources) =>
      Uncommitted(st, task) && MayCommit(st.db, st.jobs[task]) && NonNegative(resources)
    case Patch(server, resources) =>
      server in st.db.servers && st.db.servers[server].status.Stopped? && NonNegative(resources)
    case AddNode(node, row) => node !in st.hosts && row.capacity.cpu > 0.0 && row.capacity.mem > 0
    case RemoveNode(node) => node in st.db.nodes
    case PatchNode(node, _, _, capacity) => node in st.db.nodes && capacity.cpu > 0.0 && capacity.mem > 0
    case Transact(task, choice, _) =>
      MayTransact(st, task) && (st.jobs[task].phase.Marked? ==> SelectorMayReturn(st.db, task, choice))
    case Attempt(task, net, id, _) => MayAttempt(st, task, net, id)
    case Throw(task) => task in st.jobs && Guarded(st.jobs[task].phase)
    case Late(stray, id, _) => stray in st.strays && id !in st.cloud.born
  }

  function Apply(st: State, step: Step): State
    requires Enabled(st, step)
  {
    match step
    case Enqueue(task, kind, origin) => Enqueued(st, task, kind, origin)
    case Commit(task, owner, resources) => st.(db := Committed(st.db, task, st.jobs[task], owner, resources))
    case Patch(server, resources) => st.(db := PatchServer(st.db, server, resources))
    case AddNode(node, row) =>
      st.(db := st.db.(nodes := st.db.nodes[node := row]), hosts := st.hosts[node := Some(row.endpoint)])
    case RemoveNode(node) => st.(db := DeleteNode(st.db, node))
    case PatchNode(node, endpoint, status, capacity) =>
      st.(db := UpdateNode(st.db, node, endpoint, status, capacity),
          hosts := if endpoint == st.db.nodes[node].endpoint then st.hosts else st.hosts[node := None])
    case Transact(task, choice, silent) => Run(st, task, NextTx(st.db, task, st.jobs[task], choice, silent))
    case Attempt(task, net, id, size) => Deliver(st, task, net, id, size)
    case Throw(task) => Run(st, task, Tx(st.db, st.jobs[task].(phase := Failing)))
    case Late(stray, id, size) => st.(cloud := Serve(st.cloud, stray.endpoint, stray.request, id, size, true).0)
  }

  /** `states` is a run from the empty installation under `steps`. */
  ghost predicate IsRun(states: seq<State>, steps: seq<Step>) {
    && |states| == |steps| + 1 && states[0] == Initial
    && forall i :: 0 <= i < |steps| ==> Enabled(states[i], steps[i]) && states[i + 1] == Apply(states[i], steps[i])
  }
}
