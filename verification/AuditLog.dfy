/** The audit log over whole runs. */
module AuditLog {
  import opened Rows
  import opened Sums
  import opened Protocol
  import opened AuditInvariant
  import opened Runs

  /** In every reachable state there is one request row for each task created and one completion
      row for each task that succeeded, kind by kind; a provision that recorded its placement may
      still fail, so its completion rows are at least the succeeded ones. */
  lemma AuditAccounts(st: State, kind: Kind)
    requires Reachable(st)
    ensures CountOf(st.db.audit, Requested(kind)) == |OfKind(st.db.tasks, kind)|
    ensures !kind.Provision? ==> CountOf(st.db.audit, Completed(kind)) == |SucceededOf(st.db.tasks, kind)|
    ensures kind.Provision? ==> CountOf(st.db.audit, Completed(kind)) >= |SucceededOf(st.db.tasks, kind)|
  {
    hide IsRun;
    ReachableInvariant(st);
    if kind.Provision? {
      SubsetSize(SucceededOf(st.db.tasks, kind), PlacedTasks(st.db.tasks, st.jobs));
    }
  }
}
