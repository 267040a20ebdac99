/** The running system: the tables, the queue and the agents, changed in place one step at a time
    by API requests and by the worker's jobs, each free to run between any two steps of another. */
module Worker {
  import opened Wrappers
  import opened Rows
  import opened NodeSelector
  import opened Agent
  import opened NodeAgentClient
  import opened Jobs
  import opened Protocol
  import opened JobInvariant
  import opened CoreInvariant
  import opened ContainerSteps
  import opened Runs
  import opened TaskMachine
  import opened Outcomes
  import opened Store
  import opened JobTransactions

  /** The rows of a table in some order. */
  method RowsOf<R>(table: map<nat, R>) returns (rows: seq<(nat, R)>)
    ensures Scans(rows, table)
  {
    rows := [];
    var keys := table.Keys;
    while keys != {}
      invariant keys <= table.Keys
      invariant forall i :: 0 <= i < |rows| ==>
        rows[i].0 in table && table[rows[i].0] == rows[i].1 && rows[i].0 !in keys
      invariant forall i, j :: 0 <= i < j < |rows| ==> rows[i].0 != rows[j].0
      invariant forall k :: k in table && k !in keys ==> exists i :: 0 <= i < |rows| && rows[i].0 == k
      decreases |keys|
    {
      var key :| key in keys;
      ghost var before := rows;
      rows := rows + [(key, table[key])];
      keys := keys - {key};
      forall k | k in table && k !in keys ensures exists i :: 0 <= i < |rows| && rows[i].0 == k {
        if k == key {
          assert rows[|before|].0 == k;
        } else {
          var i :| 0 <= i < |before| && before[i].0 == k;
          assert rows[i].0 == k;
        }
      }
    }
  }

  /** The selector's query over the tables. */
  method LeastLoadedNode(servers: map<nat, ServerRow>, nodes: map<nat, NodeRow>, request: Resources)
    returns (choice: Option<nat>)
    ensures LeastLoaded(servers, nodes, request, choice)
  {
    var rows := RowsOf(servers);
    var nodeRows := RowsOf(nodes);
    choice := Select(rows, nodeRows, request);
    SelectIsLeastLoaded(rows, servers, nodeRows, nodes, request);
  }

  class Panel {
    const db: Tables
    var jobs: map<nat, Job>
    var cloud: Cloud
    // the ids ever issued
    var made: map<nat, nat>
    var ordered: map<nat, nat>
    var hosts: map<nat, Option<nat>>
    var strays: set<Stray>

    constructor ()
      ensures Valid() && St() == Initial && fresh(db)
    {
      db := new Tables();
      jobs, cloud, hosts, strays := map[], Cloud(map[], {}, map[]), map[], {};
      made, ordered := map[], map[];
      new;
      InitialReachable();
    }

    function St(): State
      reads this, db
    {
      State(db.View(), jobs, cloud, strays, made, ordered, hosts)
    }

    ghost predicate Valid()
      reads this, db
    {
      Reachable(St())
    }

    // ----- the worker's steps

    /** Commit the next transaction of a job. */
    method Transact(task: nat, silent: bool) returns (choice: Option<nat>)
      requires Valid() && task in jobs && !jobs[task].phase.Calling? && !jobs[task].phase.Ended?
      modifies this, db
      ensures Enabled(old(St()), Step.Transact(task, choice, silent))
      ensures St() == Apply(old(St()), Step.Transact(task, choice, silent))
      ensures Valid()
    {
      hide Reachable, SelectorMayReturn, NextTx;
      ghost var before := St();
      choice := None;
      if jobs[task].phase.Marked? { choice := ChooseNode(task); }
      var job := RunNext(task, choice, silent);
      jobs := jobs[task := job];
      Extend(before, Step.Transact(task, choice, silent));
    }

    method RunNext(task: nat, choice: Option<nat>, silent: bool) returns (job: Job)
      requires task in jobs && !jobs[task].phase.Calling? && !jobs[task].phase.Ended?
      modifies db
      ensures Tx(db.View(), job) == NextTx(old(db.View()), task, old(jobs[task]), choice, silent)
    {
      hide Begin, ProvisionSelect, ReadNode, Mourn, Place, Close, Fail;
      job := jobs[task];
      match job.phase {
        case Queued => job := RunFirst(task);
        case Marked => job := ProvisionChoose(db, task, job, choice);
        case Lookup(_) => job := DeleteLookup(db, job);
        case Orphan => job := RecordMissingNode(db, task, job);
        case Placing(_, _) => job := ProvisionRecord(db, job, silent);
        case Closing(_) => job := Succeed(db, task, job);
        case Failing => job := HandleFailure(db, task, job);
      }
    }

    method RunFirst(task: nat) returns (job: Job)
      requires task in jobs && jobs[task].phase.Queued?
      modifies db
      ensures Tx(db.View(), job) == Begin(old(db.View()), task, old(jobs[task]))
    {
      job := jobs[task];
      match job.kind {
        case Provision => job := ProvisionMark(db, task, job);
        case Delete => job := DeleteFirst(db, task, job);
        case Backup => job := BackupFirst(db, task, job);
        case Restore => job := RestoreFirst(db, task, job);
        case _ => job := LifecycleFirst(db, task, job);
      }
    }

    /** The selector sees the status the same transaction has just set. */
    method ChooseNode(task: nat) returns (choice: Option<nat>)
      requires Valid()
      ensures SelectorMayReturn(db.View(), task, choice)
    {
      choice := None;
      if task in db.tasks && db.tasks[task].server.Some? && db.tasks[task].server.value in db.servers {
        var server := db.tasks[task].server.value;
        var row := db.servers[server];
        choice := LeastLoadedNode(db.servers[server := row.(status := ServerStatus.Provisioning)], db.nodes,
          row.resources);
      }
    }

    /** One attempt at the request a job waits for. */
    method Attempt(task: nat, net: Net, id: nat, size: nat)
      requires Valid() && Enabled(St(), Step.Attempt(task, net, id, size))
      modifies this
      ensures St() == Apply(old(St()), Step.Attempt(task, net, id, size)) && Valid()
    {
      hide Reachable, Serve, Seen, React;
      ghost var before := St();
      var job := jobs[task];
      var (served, answer) := Serve(cloud, job.phase.endpoint, job.phase.request, id, size, false);
      if Executed(net) { cloud := served; }
      strays := strays + LeftBehind(task, job, net);
      jobs := jobs[task := React(job, Seen(net, answer))];
      Extend(before, Step.Attempt(task, net, id, size));
    }

    method Throw(task: nat)
      requires Valid() && task in jobs && Guarded(jobs[task].phase)
      modifies this
      ensures St() == Apply(old(St()), Step.Throw(task)) && Valid()
    {
      hide Reachable;
      ghost var before := St();
      jobs := jobs[task := jobs[task].(phase := Failing)];
      Extend(before, Step.Throw(task));
    }

    /** An agent carries out a request its client no longer waits for. */
    method ServeLate(stray: Stray, id: nat, size: nat)
      requires Valid() && stray in strays && id !in cloud.born
      modifies `cloud
      ensures St() == Apply(old(St()), Step.Late(stray, id, size)) && Valid()
    {
      hide Reachable, Serve;
      ghost var before := St();
      cloud := Serve(cloud, stray.endpoint, stray.request, id, size, true).0;
      Extend(before, Step.Late(stray, id, size));
    }
  }

  lemma KindsOf(st: State, task: nat)
    requires Reachable(st) && task in st.jobs
    ensures JobOk(st.jobs[task], Find(st.db.tasks, task))
  {
    hide IsRun;
    ReachableInvariant(st);
    Parts(st);
    JobOf(st, task);
  }
}
