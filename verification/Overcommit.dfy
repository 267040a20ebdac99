/** Over-commitment of a node over whole runs. What is accounted to a node is what its counted server
    rows ask for and what the provisions in flight for it ask for. */
module Overcommit {
  import opened Wrappers
  import opened Rows
  import opened Repositories
  import opened Sums
  import opened NodeSelector
  import opened Agent
  import opened NodeAgentClient
  import opened Jobs
  import opened Protocol
  import opened JobInvariant
  import opened CoreInvariant
  import opened ContainerInvariant
  import opened Capacity
  import opened Runs
  import opened Unhindered
  import opened Witnesses

  ghost predicate AlwaysWithin(states: seq<State>, k: nat, r: Resources)
    requires k >= 1
  {
    forall i :: 0 <= i < |states| ==> WithinCeiling(states[i], k, r)
  }

  /** Each start that revives a server finds room for it, and each patch leaves its node enough. */
  ghost predicate AlwaysAffordable(states: seq<State>, steps: seq<Step>, k: nat, r: Resources)
    requires k >= 1 && |states| == |steps| + 1
  {
    forall i :: 0 <= i < |steps| ==> Affordable(states[i], steps[i], k, r)
  }

  lemma {:induction false} AffordableRuns(states: seq<State>, steps: seq<Step>, k: nat, r: Resources, i: nat)
    requires IsRun(states, steps) && k >= 1 && AtMost(Nothing, r) && AlwaysBounded(states, k, r)
    requires AlwaysAffordable(states, steps, k, r) && i < |states|
    ensures WithinCeiling(states[i], k, r)
  {
    hide Invariant, Enabled, Apply, WithinCeiling, Bounded, Affordable, Core, Containers, AsksOk, IsRun;
    if i == 0 {
      assert states[0] == Initial && WithinCeiling(Initial, k, r) by { EmptyWithin(states, steps, k, r); }
    } else {
      AffordableRuns(states, steps, k, r, i - 1);
      RunStep(states, steps, i - 1);
      RunKeepsInvariant(states, steps, i - 1);
      Parts(states[i - 1]);
      StepCeiling(states[i - 1], steps[i - 1], k, r);
    }
  }

  lemma EmptyWithin(states: seq<State>, steps: seq<Step>, k: nat, r: Resources)
    requires IsRun(states, steps) && k >= 1
    ensures states[0] == Initial && WithinCeiling(Initial, k, r)
  {
  }

  lemma WithinNeedsAffordable(states: seq<State>, steps: seq<Step>, k: nat, r: Resources, i: nat)
    requires IsRun(states, steps) && k >= 1 && AtMost(Nothing, r) && AlwaysBounded(states, k, r)
    requires AlwaysWithin(states, k, r) && i < |steps| && |states| == |steps| + 1
    ensures Affordable(states[i], steps[i], k, r)
  {
    hide Invariant, Enabled, Apply, WithinCeiling, Bounded, Affordable, Core, Containers, AsksOk, IsRun;
    RunStep(states, steps, i);
    RunKeepsInvariant(states, steps, i);
    Parts(states[i]);
    StepCeiling(states[i], steps[i], k, r);
  }

  /** Over any run with at most k provisions in flight, each for at most r: what is accounted to each
      node stays within capacity + (k - 1) * r throughout if and only if every step is affordable. */
  lemma RunWithinCeiling(states: seq<State>, steps: seq<Step>, k: nat, r: Resources)
    requires IsRun(states, steps) && k >= 1 && AtMost(Nothing, r) && AlwaysBounded(states, k, r)
    ensures |states| == |steps| + 1
    ensures AlwaysWithin(states, k, r) <==> AlwaysAffordable(states, steps, k, r)
  {
    hide WithinCeiling, Affordable, Enabled, Apply, Bounded;
    if AlwaysAffordable(states, steps, k, r) {
      forall i | 0 <= i < |states| ensures WithinCeiling(states[i], k, r) {
        AffordableRuns(states, steps, k, r, i);
      }
    }
    if AlwaysWithin(states, k, r) {
      forall i | 0 <= i < |steps| ensures Affordable(states[i], steps[i], k, r) {
        WithinNeedsAffordable(states, steps, k, r, i);
      }
    }
  }

  /** At every moment no node has more accounted to it than its capacity. */
  ghost predicate NeverOver(states: seq<State>) {
    forall i, n :: 0 <= i < |states| && n in states[i].db.nodes ==>
      var load, capacity := Load(states[i].db.servers, states[i].jobs, n), states[i].db.nodes[n].capacity;
      load.cpu <= capacity.cpu && load.mem <= capacity.mem
  }

  /** The load in full: the servers placed on the node that are provisioning or running, and the
      provisions that wait for its agent or are about to record a container there. */
  lemma LoadInFull(servers: map<nat, ServerRow>, jobs: map<nat, Job>, node: nat, counted: map<nat, Resources>,
                   asked: map<nat, Resources>)
    requires counted == map s | s in servers && servers[s].node == Some(node)
      && (servers[s].status == ServerStatus.Provisioning || servers[s].status == ServerStatus.Running)
      :: servers[s].resources
    requires asked == map t | t in jobs && jobs[t].kind == Kind.Provision
      && (jobs[t].phase.Calling? || jobs[t].phase.Placing?) && jobs[t].phase.node == node
      :: jobs[t].ask
    ensures Load(servers, jobs, node) ==
      Resources(Total(counted).cpu + Total(asked).cpu, Total(counted).mem + Total(asked).mem)
  {
    hide UsedOn, AskedOn;
    UsedInFull(servers, node, counted);
    AskedInFull(jobs, node, asked);
  }

  lemma AskedInFull(jobs: map<nat, Job>, node: nat, asked: map<nat, Resources>)
    requires asked == map t | t in jobs && jobs[t].kind == Kind.Provision
      && (jobs[t].phase.Calling? || jobs[t].phase.Placing?) && jobs[t].phase.node == node
      :: jobs[t].ask
    ensures AskedOn(jobs, node) == asked
  {
    var on := AskedOn(jobs, node);
    assert on.Keys == asked.Keys;
    forall t | t in on ensures on[t] == asked[t] {
    }
  }

  /** With one provision in flight at a time, nothing is over-committed if and only if no start revives
      a server its node has no room for and no patch takes capacity that is in use. */
  lemma OneAtATime(states: seq<State>, steps: seq<Step>, r: Resources)
    requires IsRun(states, steps) && AtMost(Nothing, r) && AlwaysBounded(states, 1, r)
    ensures |states| == |steps| + 1
    ensures NeverOver(states) <==> AlwaysAffordable(states, steps, 1, r)
  {
    hide IsRun, AlwaysBounded, AlwaysAffordable, Load;
    RunWithinCeiling(states, steps, 1, r);
    forall capacity ensures Ceiling(capacity, 1, r) == capacity {
      TimesZero(r);
    }
    hide Ceiling;
  }

  /** The worker's `max_jobs`. */
  const MAX_JOBS: nat := 10

  /** The jobs a worker has begun and not finished. */
  function Underway(jobs: map<nat, Job>): set<nat> {
    set t | t in jobs && !jobs[t].phase.Queued? && !jobs[t].phase.Ended?
  }

  /** The worker runs at most ten jobs at a time, and no provision asks for more than r. */
  ghost predicate TenSlots(states: seq<State>, r: Resources) {
    forall i :: 0 <= i < |states| ==>
      |Underway(states[i].jobs)| <= MAX_JOBS
      && forall t :: t in states[i].jobs && InFlight(states[i].jobs[t]) ==> AtMost(states[i].jobs[t].ask, r)
  }

  lemma SlotsBound(st: State, r: Resources)
    requires |Underway(st.jobs)| <= MAX_JOBS
    requires forall t :: t in st.jobs && InFlight(st.jobs[t]) ==> AtMost(st.jobs[t].ask, r)
    ensures Bounded(st, MAX_JOBS, r)
  {
    assert Provisions(st.jobs) <= Underway(st.jobs);
    SubsetSize(Provisions(st.jobs), Underway(st.jobs));
  }

  /** With the worker's ten slots a node is over-committed by at most nine requests, if and only if
      every step is affordable by that measure. */
  lemma TenJobs(states: seq<State>, steps: seq<Step>, r: Resources)
    requires IsRun(states, steps) && AtMost(Nothing, r) && TenSlots(states, r)
    ensures |states| == |steps| + 1
    ensures AlwaysAffordable(states, steps, MAX_JOBS, r) <==>
      forall i, n :: 0 <= i < |states| && n in states[i].db.nodes ==>
        var load, capacity := Load(states[i].db.servers, states[i].jobs, n), states[i].db.nodes[n].capacity;
        load.cpu <= capacity.cpu + 9.0 * r.cpu && load.mem <= capacity.mem + 9 * r.mem
  {
    hide IsRun, AlwaysAffordable, Load, Bounded;
    forall j | 0 <= j < |states| ensures Bounded(states[j], MAX_JOBS, r) {
      SlotsBound(states[j], r);
    }
    RunWithinCeiling(states, steps, MAX_JOBS, r);
  }

  /** The guard is missed in real runs: one that never has two provisions in flight, each for one CPU
      and 1024 MiB, ends with twice the capacity of its only node accounted to it. */
  lemma StartsOvercommit() returns (st: State)
    ensures ReachableWithin(st, 1, Ask) && 0 in st.db.nodes && st.db.nodes[0].capacity == Ask
    ensures Load(st.db.servers, st.jobs, 0) == Resources(2.0, 2048)
    ensures !WithinCeiling(st, 1, Ask)
  {
    hide ReachableWithin, Load, WithinCeiling;
    st := RevivedOverCapacity();
    TwiceIsOver(st);
  }

  lemma TwiceIsOver(st: State)
    requires 0 in st.db.nodes && st.db.nodes[0].capacity == Ask
    requires Load(st.db.servers, st.jobs, 0) == Resources(2.0, 2048)
    ensures !WithinCeiling(st, 1, Ask)
  {
    hide Load, Times;
    TimesZero(Ask);
    assert !AtMost(Load(st.db.servers, st.jobs, 0), Ceiling(st.db.nodes[0].capacity, 1, Ask));
  }
}
