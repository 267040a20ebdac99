/** What each API request needs and writes, row by row. */
module RequestEffects {
  import opened Wrappers
  import opened Rows
  import opened Jobs
  import opened Protocol

  /** The statuses each request needs: a start a stopped or failed server, a stop or restart a running
      one, a restore a stopped one and an available backup of it; a delete is turned down only by a
      server that is being deleted, a backup by none. */
  lemma WhatRequestsNeed(st: State, task: nat, owner: nat, resources: Resources)
    requires task in st.jobs && task !in st.db.tasks && resources.cpu >= 0.0 && resources.mem >= 0
    ensures var Origin(server, backup) := st.jobs[task].origin;
      var exist := server in st.db.servers;
      Enabled(st, Commit(task, owner, resources)) <==>
        match st.jobs[task].kind
        case Provision => true
        case Start =>
          exist && (st.db.servers[server].status == ServerStatus.Stopped
                    || st.db.servers[server].status == ServerStatus.Failed)
        case Stop => exist && st.db.servers[server].status == ServerStatus.Running
        case Restart => exist && st.db.servers[server].status == ServerStatus.Running
        case Delete => exist && st.db.servers[server].status != ServerStatus.Deleting
        case Backup => exist
        case Restore =>
          && exist && st.db.servers[server].status == ServerStatus.Stopped
          && backup in st.db.backups && st.db.backups[backup].server == server
          && st.db.backups[backup].status == BackupStatus.Available
  {
  }

  /** What a request writes: its pending task and one row in the log; a create the pending, unplaced
      server, a delete the status, a backup the backup's row with the key of server and backup. No
      other row changes, nor any job, container or node. */
  lemma WhatRequestsWrite(st: State, task: nat, owner: nat, resources: Resources)
    requires Enabled(st, Commit(task, owner, resources))
    ensures var job := st.jobs[task];
      var Origin(server, backup) := job.origin;
      var after := Apply(st, Commit(task, owner, resources));
      var restored := job.kind == Kind.Backup || job.kind == Kind.Restore;
      && after == st.(db := after.db) && after.db.nodes == st.db.nodes
      && after.db.tasks == st.db.tasks[task :=
           TaskRow(Some(server), job.kind, TaskStatus.Pending, false, false, if restored then Some(backup) else None)]
      && after.db.audit == st.db.audit + [AuditRow(Requested(job.kind), if restored then backup else server)]
      && after.db.backups == (if job.kind == Kind.Backup
           then st.db.backups[backup := BackupRow(server, Key(server, backup), BackupStatus.Creating, 0)]
           else st.db.backups)
      && (job.kind != Kind.Provision && job.kind != Kind.Delete ==> after.db.servers == st.db.servers)
      && (job.kind == Kind.Provision ==>
            after.db.servers == st.db.servers[server :=
              ServerRow(owner, ServerStatus.Pending, None, None, resources)])
      && (job.kind == Kind.Delete ==>
            && server in st.db.servers
            && var row := st.db.servers[server];
               after.db.servers == st.db.servers[server :=
                 ServerRow(row.owner, ServerStatus.Deleting, row.node, row.container, row.resources)])
  {
    hide MayCommit;
    if st.jobs[task].kind.Delete? { DeleteNeedsServer(st, task, owner, resources); }
  }

  lemma DeleteNeedsServer(st: State, task: nat, owner: nat, resources: Resources)
    requires Enabled(st, Commit(task, owner, resources)) && st.jobs[task].kind.Delete?
    ensures st.jobs[task].origin.server in st.db.servers
  {
  }

  /** Queueing only adds the job, with no locals yet, and notes the ids it uses up. */
  lemma WhatEnqueueAdds(st: State, task: nat, kind: Kind, origin: Origin)
    requires Enabled(st, Enqueue(task, kind, origin))
    ensures var after := Apply(st, Enqueue(task, kind, origin));
      && after == st.(jobs := after.jobs, made := after.made, ordered := after.ordered)
      && task !in st.jobs && after.jobs == st.jobs[task :=
           Job(kind, origin, Queued, None, None, None, None, Resources(0.0, 0), false)]
      && after.made == (if kind == Kind.Provision then st.made[origin.server := task] else st.made)
      && after.ordered == (if kind == Kind.Backup then st.ordered[origin.backup := task] else st.ordered)
  {
  }

  /** A removed node leaves each server row what it was, with `node` None if and only if it named that
      node or none; no other node and no other table changes. */
  lemma NodeRemoved(st: State, node: nat)
    requires node in st.db.nodes
    ensures var after := Apply(st, RemoveNode(node));
      && after == st.(db := st.db.(nodes := after.db.nodes, servers := after.db.servers))
      && (forall n :: n in after.db.nodes <==> n in st.db.nodes && n != node)
      && (forall n :: n in after.db.nodes ==> after.db.nodes[n] == st.db.nodes[n])
      && after.db.servers.Keys == st.db.servers.Keys
      && forall s :: s in st.db.servers ==>
           var row, now := st.db.servers[s], after.db.servers[s];
           && now == ServerRow(row.owner, row.status, now.node, row.container, row.resources)
           && (now.node == None <==> row.node == Some(node) || row.node == None)
           && (now.node.Some? ==> now.node == row.node)
  {
  }

  /** A node is added with its row as given, under an id never used, with room for something; its agent
      is the one at the row's endpoint. */
  lemma NodeAdded(st: State, node: nat, row: NodeRow)
    ensures Enabled(st, AddNode(node, row)) <==> node !in st.hosts && row.capacity.cpu > 0.0 && row.capacity.mem > 0
    ensures Enabled(st, AddNode(node, row)) ==>
      Apply(st, AddNode(node, row)) ==
        st.(db := st.db.(nodes := st.db.nodes[node := row]), hosts := st.hosts[node := Some(row.endpoint)])
  {
  }

  /** A patched node gets what was given; its agent counts as another one if and only if the endpoint is
      another one. */
  lemma NodePatched(st: State, node: nat, endpoint: nat, status: NodeStatus, capacity: Resources)
    requires node in st.db.nodes && capacity.cpu > 0.0 && capacity.mem > 0
    ensures var after := Apply(st, PatchNode(node, endpoint, status, capacity));
      && after == st.(db := st.db.(nodes := st.db.nodes[node := NodeRow(endpoint, status, capacity)]),
                      hosts := after.hosts)
      && after.hosts == if st.db.nodes[node].endpoint == endpoint then st.hosts else st.hosts[node := None]
  {
  }

  /** Only a stopped server can be patched, and only its resources change. */
  lemma ServerPatched(st: State, server: nat, resources: Resources)
    requires resources.cpu >= 0.0 && resources.mem >= 0
    ensures Enabled(st, Patch(server, resources)) <==>
      server in st.db.servers && st.db.servers[server].status == ServerStatus.Stopped
    ensures Enabled(st, Patch(server, resources)) ==>
      var row := st.db.servers[server];
      Apply(st, Patch(server, resources)) ==
        st.(db := st.db.(servers := st.db.servers[server :=
              ServerRow(row.owner, ServerStatus.Stopped, row.node, row.container, resources)]))
  {
  }
}
