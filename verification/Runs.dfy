/** The invariants hold in every state of every run, and what follows for whole runs. */
module Runs {
  import opened Wrappers
  import opened Rows
  import opened Repositories
  import opened Sums
  import opened NodeSelector
  import opened Agent
  import opened NodeAgentClient
  import opened Jobs
  import opened Protocol
  import opened JobInvariant
  import opened CoreInvariant
  import opened ContainerInvariant
  import opened ContainerSteps
  import opened BackupInvariant
  import opened AuditInvariant
  import opened Capacity

  ghost predicate Invariant(st: State) {
    && Core(st) && Containers(st) && Backups(st)
    && AuditOk(st.db.audit, st.db.tasks, st.jobs)
    && AsksOk(st.db.servers, st.jobs)
  }

  lemma InitialInvariant()
    ensures Invariant(Initial)
  {
    assert Core(Initial) && Containers(Initial) && Backups(Initial);
    forall kind: Kind ensures OfKind(Initial.db.tasks, kind) == {} && SucceededOf(Initial.db.tasks, kind) == {} {
    }
    assert PlacedTasks(Initial.db.tasks, Initial.jobs) == {};
  }

  lemma StepKeepsInvariant(st: State, step: Step)
    requires Invariant(st) && Enabled(st, step)
    ensures Invariant(Apply(st, step))
  {
    hide Core, Containers, Backups, AuditOk, AsksOk, Enabled, Apply;
    StepKeepsCore(st, step);
    StepKeepsContainers(st, step);
    StepKeepsBackups(st, step);
    StepKeepsAudit(st, step);
    StepKeepsAsks(st, step);
  }

  lemma RunStep(states: seq<State>, steps: seq<Step>, i: nat)
    requires IsRun(states, steps) && i + 1 < |states|
    ensures |states| == |steps| + 1
    ensures Enabled(states[i], steps[i]) && states[i + 1] == Apply(states[i], steps[i])
  {
    hide Enabled, Apply;
  }

  /** Every interleaving of API requests, worker transactions, HTTP attempts and exceptions keeps
      the invariant. */
  lemma {:induction false} RunKeepsInvariant(states: seq<State>, steps: seq<Step>, i: nat)
    requires IsRun(states, steps) && i < |states|
    ensures Invariant(states[i])
  {
    hide Invariant, Enabled, Apply;
    if i == 0 {
      InitialInvariant();
    } else {
      RunKeepsInvariant(states, steps, i - 1);
      StepKeepsInvariant(states[i - 1], steps[i - 1]);
    }
  }

  lemma Parts(st: State)
    requires Invariant(st)
    ensures Core(st) && Containers(st) && Backups(st)
    ensures AuditOk(st.db.audit, st.db.tasks, st.jobs) && AsksOk(st.db.servers, st.jobs)
  {
  }

  ghost predicate Reachable(st: State) {
    exists states: seq<State>, steps: seq<Step> :: IsRun(states, steps) && states[|steps|] == st
  }

  lemma ReachableInvariant(st: State)
    requires Reachable(st)
    ensures Invariant(st)
  {
    hide Invariant, Enabled, Apply;
    var states: seq<State>, steps: seq<Step> :| IsRun(states, steps) && states[|steps|] == st;

    RunKeepsInvariant(states, steps, |steps|);
  }

  lemma InitialReachable()
    ensures Reachable(Initial)
  {
    assert IsRun([Initial], []);
  }

  lemma Extend(st: State, step: Step)
    requires Reachable(st) && Enabled(st, step)
    ensures Reachable(Apply(st, step))
  {
    hide Enabled, Apply;
    var states: seq<State>, steps: seq<Step> :| IsRun(states, steps) && states[|steps|] == st;
    var longer := states + [Apply(st, step)];
    assert IsRun(longer, steps + [step]);
    assert longer[|steps + [step]|] == Apply(st, step);
  }

  // ----- runs with few provisions at a time

  /** At every moment at most k provisions are in flight and each asks for at most r. */
  ghost predicate AlwaysBounded(states: seq<State>, k: nat, r: Resources) {
    forall i :: 0 <= i < |states| ==> Bounded(states[i], k, r)
  }

  ghost predicate ReachableWithin(st: State, k: nat, r: Resources) {
    exists states: seq<State>, steps: seq<Step> ::
      IsRun(states, steps) && AlwaysBounded(states, k, r) && states[|steps|] == st
  }

  lemma WithinIsReachable(st: State, k: nat, r: Resources)
    requires ReachableWithin(st, k, r)
    ensures Reachable(st)
  {
    hide Enabled, Apply, Bounded;
    var states: seq<State>, steps: seq<Step> :|
      IsRun(states, steps) && AlwaysBounded(states, k, r) && states[|steps|] == st;
  }

  lemma InitialWithin(k: nat, r: Resources)
    ensures ReachableWithin(Initial, k, r)
  {
    assert Provisions(Initial.jobs) == {};
    assert IsRun([Initial], []) && AlwaysBounded([Initial], k, r);
  }

  lemma ExtendWithin(st: State, step: Step, k: nat, r: Resources)
    requires ReachableWithin(st, k, r) && Enabled(st, step) && Bounded(Apply(st, step), k, r)
    ensures ReachableWithin(Apply(st, step), k, r)
  {
    hide Enabled, Apply, Bounded;
    var states: seq<State>, steps: seq<Step> :|
      IsRun(states, steps) && AlwaysBounded(states, k, r) && states[|steps|] == st;
    var longer := states + [Apply(st, step)];
    assert IsRun(longer, steps + [step]) && AlwaysBounded(longer, k, r);
    assert longer[|steps + [step]|] == Apply(st, step);
  }
}
