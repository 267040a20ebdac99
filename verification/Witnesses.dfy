/** Runs that show where a guarantee ends, put together from jobs that meet no obstacle. */
module Witnesses {
  import opened Wrappers
  import opened Rows
  import opened Repositories
  import opened Sums
  import opened NodeSelector
  import opened Agent
  import opened NodeAgentClient
  import opened Jobs
  import opened Protocol
  import opened Capacity
  import opened Runs
  import opened Unhindered

  // ----- the installation with one placed server

  const LostCreate := Stray(0, 7, CreateContainer(0))
  const OneBorn := Cloud(map[5 := Container(7, 0, false)], {5}, map[])

  function Running(container: nat): ServerRow {
    ServerRow(0, ServerStatus.Running, Some(0), Some(container), Ask)
  }

  /** The empty installation gets its one node, and a request for a server commits. */
  lemma Requested0() returns (st: State)
    ensures Calm(st, 0) && Provisions(st.jobs) == {} && st.jobs == map[0 := NewJob(Provision, Origin(0, 0))]
    ensures st.db.tasks == map[0 := TaskFor(Provision, Origin(0, 0))] && st.db.backups == map[] && st.ordered == map[]
    ensures st.db.servers == map[0 := ServerRow(0, ServerStatus.Pending, None, None, Ask)]
    ensures st.db.nodes == map[0 := OneNode] && st.hosts == map[0 := Some(7)] && st.made == map[0 := 0]
    ensures st.cloud == Initial.cloud && st.strays == {}
  {
    hide ReachableWithin;
    InitialWithin(1, Ask);
    OneStep(Initial, AddNode(0, OneNode), 0);
    var s1 := Apply(Initial, AddNode(0, OneNode));
    st := RequestCommits(s1, 0, Provision, Origin(0, 0));
    ProvisionCommits(s1.db, 0, 0);
    StillNone(st, 0);
  }

  /** One node, server 0 placed on it by task 0, whose first create request was lost. */
  ghost predicate Installed(st: State) {
    && Calm(st, 0) && Provisions(st.jobs) == {} && st.jobs.Keys == {0} && st.db.tasks.Keys == {0}
    && st.db.nodes == map[0 := OneNode] && st.hosts == map[0 := Some(7)] && st.made == map[0 := 0]
    && st.db.servers == map[0 := Running(5)] && st.cloud == OneBorn && LostCreate in st.strays
    && st.db.backups == map[] && st.ordered == map[]
  }

  lemma AttemptLost(st: State, task: nat, id: nat, size: nat)
    requires task in st.jobs && st.jobs[task].phase.Calling? && st.jobs[task].phase.attempt == 0
    ensures var Calling(_, endpoint, request, _) := st.jobs[task].phase;
      Deliver(st, task, Lost(false), id, size) ==
        st.(strays := st.strays + {Stray(task, endpoint, request)},
            jobs := st.jobs[task := st.jobs[task].(phase := st.jobs[task].phase.(attempt := 1))])
  {
  }

  lemma Install() returns (st: State)
    ensures Installed(st)
  {
    hide Calm, Provisions, Deliver;
    var s1 := Requested0();
    var s2 := ProvisionAsks(s1, 0, 0);
    var s3 := JobCalls(s2, 0, Lost(false), 5, 0);
    AttemptLost(s2, 0, 5, 0);
    assert !NameTaken(s3.cloud, 7, 0);
    st := ProvisionEnds(s3, 0, 0, 5, 6, 1);
  }

  // ----- where guarantees end

  /** A delete job begins before the provision has chosen a node and so reads no container; the
      placement is recorded before the delete job goes on. */
  lemma PlacedDuringDelete() returns (st: State)
    ensures Reachable(st) && 1 in st.jobs && st.jobs[1].kind.Delete? && st.jobs[1].phase.Closing?
    ensures st.jobs[1].container.None? && st.jobs[1].server == Some(0) && 0 in st.db.servers
    ensures st.db.servers[0].node == Some(0) && st.db.servers[0].container == Some(5) && 5 in st.cloud.live
  {
    hide Calm, Provisions;
    var s1 := Requested0();
    Recalm(s1, 0, 1);
    var s2 := DeleteStarts(s1, 1, 0);
    StillNone(s2, 1);
    Recalm(s2, 1, 0);
    var s3 := ProvisionAsks(s2, 0, 0);
    assert !NameTaken(s3.cloud, 7, 0);
    st := ProvisionEnds(s3, 0, 0, 5, 6, 0);
    CalmIsReachable(st, 0);
  }

  lemma CalmIsReachable(st: State, task: nat)
    requires Calm(st, task)
    ensures Reachable(st)
  {
    hide ReachableWithin, Reachable;
    WithinIsReachable(st, 1, Ask);
  }

  lemma LateStep(st: State, stray: Stray, id: nat, size: nat) returns (after: State)
    requires Reachable(st) && stray in st.strays && id !in st.cloud.born
    ensures Reachable(after)
    ensures after == st.(cloud := Serve(st.cloud, stray.endpoint, stray.request, id, size, true).0)
  {
    hide Reachable, Serve;
    Extend(st, Late(stray, id, size));
    after := Apply(st, Late(stray, id, size));
  }

  /** The lost create request arrives after the container was removed and makes another one. */
  lemma CreatedAgain() returns (st: State)
    ensures Reachable(st) && 5 in st.cloud.born && 6 in st.cloud.born
    ensures st.cloud.born[5] == Container(7, 0, false) && st.cloud.born[6] == Container(7, 0, true)
  {
    hide Calm, Provisions, Reachable;
    var s1 := Install();
    Recalm(s1, 0, 1);
    var s2 := DeleteAsks(s1, 1, 0, 0, 5, 6);
    CalmIsReachable(s2, 1);
    assert !NameTaken(s2.cloud, 7, 0);
    st := LateStep(s2, LostCreate, 6, 0);
  }

  /** The node's endpoint is patched under a placed server. */
  lemma MovedNode() returns (st: State)
    ensures Calm(st, 1) && Provisions(st.jobs) == {} && st.jobs.Keys == {0} && st.db.tasks.Keys == {0}
    ensures Reachable(st) && st.cloud == OneBorn && st.db.servers == map[0 := Running(5)]
    ensures st.db.nodes == map[0 := OneNode.(endpoint := 8)] && st.hosts == map[0 := None]
  {
    hide Provisions, ReachableWithin, Reachable;
    var s1 := Install();
    OneStep(s1, PatchNode(0, 8, Online, Ask), 1) by { Recalm(s1, 0, 1); }
    st := Apply(s1, PatchNode(0, 8, Online, Ask));
    CalmIsReachable(st, 1);
  }

  /** The delete job asks the new endpoint, is told 404, and is about to remove the row; the agent at
      the old endpoint still has the container. */
  lemma RemovedElsewhere() returns (st: State)
    ensures Reachable(st) && 1 in st.jobs && st.jobs[1].kind.Delete? && st.jobs[1].phase.Closing?
    ensures st.jobs[1].container == Some(5) && st.jobs[1].server == Some(0) && st.jobs[1].agent == Some(Route(0, 8))
    ensures 0 in st.db.servers && st.db.servers[0].node == Some(0) && st.db.servers[0].container == Some(5)
    ensures st.cloud == OneBorn
  {
    hide Calm, Provisions, Reachable;
    var s1 := MovedNode();
    st := DeleteAsks(s1, 1, 0, 0, 5, 6);
    CalmIsReachable(st, 1);
  }

  /** A stopped server is not counted, so another takes the whole node before it is started again:
      with never more than one provision in flight, a node of one CPU comes to carry two. */
  lemma RevivedOverCapacity() returns (st: State)
    ensures ReachableWithin(st, 1, Ask)
    ensures st.db.nodes == map[0 := OneNode] && Load(st.db.servers, st.jobs, 0) == Resources(2.0, 2048)
  {
    hide Provisions, ReachableWithin, Load;
    var s1 := Install();
    Recalm(s1, 0, 1);
    var s2 := LifecycleRun(s1, 1, Stop, 0, 0, 5, 6);
    var s5 := SecondServer(s2);
    Recalm(s5, 2, 3);
    st := LifecycleRun(s5, 3, Start, 0, 0, 5, 7);
    assert st.db.servers == map[0 := Running(5), 1 := Running(6)];
    TwoServers(st);
  }

  lemma SecondServer(st: State) returns (after: State)
    requires Calm(st, 1) && Provisions(st.jobs) == {} && st.jobs.Keys == {0, 1} && st.db.tasks.Keys == {0, 1}
    requires st.db.nodes == map[0 := OneNode] && st.made == map[0 := 0] && st.cloud == OneBorn
    requires st.db.servers == map[0 := Running(5).(status := Stopped)]
    ensures Calm(after, 2) && Provisions(after.jobs) == {} && 3 !in after.jobs && 3 !in after.db.tasks
    ensures after.db.nodes == st.db.nodes && 5 in after.cloud.live && 5 in after.cloud.born && 7 !in after.cloud.born
    ensures after.cloud.born[5].endpoint == 7
    ensures after.db.servers == map[0 := Running(5).(status := Stopped), 1 := Running(6)]
  {
    hide Calm, Provisions, Committed;
    Recalm(st, 1, 2);
    var s3 := RequestCommits(st, 2, Provision, Origin(1, 0));
    ProvisionCommits(st.db, 2, 1);
    var s4 := ProvisionAsks(s3, 2, 1);
    assert !NameTaken(s4.cloud, 7, 1);
    after := ProvisionEnds(s4, 2, 1, 6, 7, 0);
  }

  lemma TwoServers(st: State)
    requires st.db.servers == map[0 := Running(5), 1 := Running(6)] && Provisions(st.jobs) == {}
    ensures Load(st.db.servers, st.jobs, 0) == Resources(2.0, 2048)
  {
    hide UsedOn, AskedOn;
    TwoUse(st.db.servers);
    NoneAsk(st.jobs);
  }

  lemma TwoUse(servers: map<nat, ServerRow>)
    requires servers == map[0 := Running(5), 1 := Running(6)]
    ensures UsedOn(servers, 0) == Resources(2.0, 2048)
  {
    assert CountedOn(servers, 0) == map[0 := Ask, 1 := Ask];
    TotalSplit(map[0 := Ask, 1 := Ask], 0);
    assert map[0 := Ask, 1 := Ask] - {0} == map[1 := Ask];
    TotalSplit(map[1 := Ask], 1);
    assert map[1 := Ask] - {1} == map[];
  }

  lemma NoneAsk(jobs: map<nat, Job>)
    requires Provisions(jobs) == {}
    ensures Total(AskedOn(jobs, 0)) == Nothing
  {
    forall t | t in jobs ensures !InFlightOn(jobs[t], 0) {
      assert t !in Provisions(jobs);
    }
    assert AskedOn(jobs, 0) == map[];
  }

  // ----- a backup carried out late

  function Archive(size: nat, late: bool): map<Key, Object> {
    map[Key(0, 3) := Object(0, size, late)]
  }

  lemma BackupCommits(db: Db, task: nat)
    ensures var after := Committed(db, task, NewJob(Backup, Origin(0, 3)), 0, Ask);
      && after.nodes == db.nodes && after.servers == db.servers
      && after.tasks == db.tasks[task := TaskFor(Backup, Origin(0, 3))]
      && after.backups == db.backups[3 := BackupRow(0, Key(0, 3), BackupStatus.Creating, 0)]
  {
  }

  lemma BackupBegins(db: Db, task: nat)
    requires task in db.tasks && db.tasks[task] == TaskFor(Backup, Origin(0, 3)) && 0 in db.nodes
    requires 3 in db.backups && db.backups[3].key == Key(0, 3) && 0 in db.servers && db.servers[0] == Running(5)
    ensures var endpoint := db.nodes[0].endpoint;
      NextTx(db, task, NewJob(Backup, Origin(0, 3)), None, false) ==
        Tx(MarkRunning(db, task),
           Reading(Backup, Origin(0, 3), Calling(0, endpoint, RunBackup(5, 0, Key(0, 3)), 0), 5, Route(0, endpoint)))
  {
  }

  lemma BackupAnswered(st: State, task: nat, id: nat, size: nat)
    requires task in st.jobs && st.jobs[task].phase.Calling? && st.jobs[task].phase.request.RunBackup?
    requires VolumeExists(st.cloud, st.jobs[task].phase.endpoint, st.jobs[task].phase.request.volume)
    ensures var request := st.jobs[task].phase.request;
      Deliver(st, task, Reply, id, size) ==
        st.(cloud := st.cloud.(objects := st.cloud.objects[request.key := Object(request.volume, size, false)]),
            jobs := st.jobs[task := st.jobs[task].(phase := Closing(size))])
  {
  }

  lemma BackupCloses(db: Db, task: nat, job: Job)
    requires job.kind.Backup? && job.phase.Closing? && job.backup == Some(3) && 3 in db.backups && task in db.tasks
    ensures var tx := NextTx(db, task, job, None, false);
      && tx.job == job.(phase := Ended)
      && tx.db.backups == db.backups[3 := db.backups[3].(status := Available, size := job.phase.size)]
  {
  }

  /** A backup whose first attempt is lost on the way, up to its second. */
  lemma BackupAsks(st: State) returns (after: State)
    requires Installed(st)
    ensures Calm(after, 1) && after.cloud == OneBorn && 1 in after.jobs && 1 in after.db.tasks
    ensures after.jobs[1] == Reading(Backup, Origin(0, 3), Calling(0, 7, RunBackup(5, 0, Key(0, 3)), 1), 5, Route(0, 7))
    ensures after.db.backups == map[3 := BackupRow(0, Key(0, 3), BackupStatus.Creating, 0)]
    ensures Stray(1, 7, RunBackup(5, 0, Key(0, 3))) in after.strays
  {
    hide Calm, Provisions, NextTx, Committed, MarkRunning, Deliver, SelectorMayReturn;
    Recalm(st, 0, 1);
    var s1 := RequestCommits(st, 1, Backup, Origin(0, 3));
    BackupCommits(st.db, 1);
    Marking(s1.db, 1);
    BackupBegins(s1.db, 1);
    var s2 := JobCommits(s1, 1, None);
    after := JobCalls(s2, 1, Lost(false), 6, 10);
    AttemptLost(s2, 1, 6, 10);
  }

  /** The first attempt of the backup arrives after the second one was recorded as available. */
  lemma OverwrittenLate() returns (st: State)
    ensures Reachable(st) && st.db.backups == map[3 := BackupRow(0, Key(0, 3), Available, 10)]
    ensures st.cloud.objects == Archive(20, true)
  {
    hide Calm, Provisions, NextTx, Deliver, Reachable, SelectorMayReturn;
    var s1 := Install();
    var s2 := BackupAsks(s1);
    assert 5 in s2.cloud.born && VolumeExists(s2.cloud, 7, 0);
    var s3 := JobCalls(s2, 1, Reply, 6, 10);
    BackupAnswered(s2, 1, 6, 10);
    BackupCloses(s3.db, 1, s3.jobs[1]);
    var s4 := JobCommits(s3, 1, None);
    CalmIsReachable(s4, 1);
    assert VolumeExists(s4.cloud, 7, 0);
    st := LateStep(s4, Stray(1, 7, RunBackup(5, 0, Key(0, 3))), 6, 20);
  }

  // ----- a provision job that runs ahead of its request's commit

  function EarlyJob(phase: Phase, asks: bool): Job {
    NewJob(Provision, Origin(0, 0)).(phase := phase, server := if asks then Some(0) else None, early := true)
  }

  function Ahead(n: nat): State
    requires n <= 5
  {
    var row := TaskFor(Provision, Origin(0, 0));
    var server := ServerRow(0, ServerStatus.Pending, None, None, Ask);
    var created := Db(map[0 := server], map[0 := row], map[], map[], [AuditRow(Requested(Provision), 0)]);
    match n
    case 0 => Initial
    case 1 => Initial.(jobs := map[0 := NewJob(Provision, Origin(0, 0))], made := map[0 := 0])
    case 2 => Initial.(jobs := map[0 := EarlyJob(Marked, false)], made := map[0 := 0])
    case 3 => Initial.(db := created, jobs := map[0 := EarlyJob(Marked, false)], made := map[0 := 0])
    case 4 => Initial.(db := created, jobs := map[0 := EarlyJob(Failing, true)], made := map[0 := 0])
    case _ => Initial.(db := created.(servers := map[0 := server.(status := ServerStatus.Failed)],
                                      tasks := map[0 := row.(status := TaskStatus.Failed, finished := true)]),
                       jobs := map[0 := EarlyJob(Ended, true)], made := map[0 := 0])
  }

  function AheadStep(n: nat): Step
    requires n < 5
  {
    match n
    case 0 => Enqueue(0, Provision, Origin(0, 0))
    case 2 => Commit(0, 0, Ask)
    case _ => Transact(0, None, false)
  }

  lemma AheadQueues(n: nat)
    requires n <= 2
    ensures Enabled(Ahead(n), AheadStep(n)) && Apply(Ahead(n), AheadStep(n)) == Ahead(n + 1)
  {
  }

  lemma AheadFails(n: nat)
    requires 3 <= n <= 4
    ensures Enabled(Ahead(n), AheadStep(n)) && Apply(Ahead(n), AheadStep(n)) == Ahead(n + 1)
  {
  }

  lemma {:induction false} AheadRuns(n: nat)
    requires n <= 5
    ensures Reachable(Ahead(n))
  {
    if n == 0 {
      InitialReachable();
    } else {
      AheadRuns(n - 1);
      if n <= 3 { AheadQueues(n - 1); } else { AheadFails(n - 1); }
      hide Reachable, Enabled, Apply, AheadStep;
      Extend(Ahead(n - 1), AheadStep(n - 1));
    }
  }

  /** The job's first transaction found no task row; the task ends without ever being started. */
  lemma FailedUnstarted() returns (st: State)
    ensures Reachable(st) && 0 in st.db.tasks && 0 in st.jobs && st.jobs[0].early
    ensures st.db.tasks[0].status == TaskStatus.Failed && !st.db.tasks[0].started
  {
    AheadRuns(5);
    hide Reachable;
    st := Ahead(5);
  }
}
