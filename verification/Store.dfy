/** The database session: one method for each repository call that writes. */
module Store {
  import opened Wrappers
  import opened Rows
  import R = Repositories

  class Tables {
    var servers: map<nat, ServerRow>
    var tasks: map<nat, TaskRow>
    var backups: map<nat, BackupRow>
    var nodes: map<nat, NodeRow>
    var audit: seq<AuditRow>

    constructor ()
      ensures View() == Db(map[], map[], map[], map[], [])
    {
      servers, tasks, backups, nodes, audit := map[], map[], map[], map[], [];
    }

    function View(): Db
      reads this
    {
      Db(servers, tasks, backups, nodes, audit)
    }

    // ----- tasks

    method CreateTask(task: nat, server: nat, kind: Kind, backup: Option<nat>)
      modifies `tasks
      ensures View() == R.CreateTask(old(View()), task, server, kind, backup)
    {
      tasks := tasks[task := TaskRow(Some(server), kind, TaskStatus.Pending, false, false, backup)];
    }

    method MarkRunning(task: nat)
      modifies `tasks
      ensures View() == R.MarkRunning(old(View()), task)
    {
      if task in tasks {
        var t := tasks[task];
        t := t.(status := TaskStatus.Running);
        t := t.(started := true);
        tasks := tasks[task := t];
      }
    }

    method MarkSucceeded(task: nat)
      modifies `tasks
      ensures View() == R.MarkSucceeded(old(View()), task)
    {
      if task in tasks {
        var t := tasks[task];
        t := t.(status := TaskStatus.Succeeded);
        t := t.(finished := true);
        tasks := tasks[task := t];
      }
    }

    method MarkFailed(task: nat)
      modifies `tasks
      ensures View() == R.MarkFailed(old(View()), task)
    {
      if task in tasks {
        var t := tasks[task];
        t := t.(status := TaskStatus.Failed);
        t := t.(finished := true);
        tasks := tasks[task := t];
      }
    }

    // ----- servers

    method CreateServer(server: nat, owner: nat, resources: Resources)
      modifies `servers
      ensures View() == old(View()).(servers :=
        old(View()).servers[server := ServerRow(owner, ServerStatus.Pending, None, None, resources)])
    {
      servers := servers[server := ServerRow(owner, ServerStatus.Pending, None, None, resources)];
    }

    method SetStatus(server: Option<nat>, status: ServerStatus)
      modifies `servers
      ensures View() == R.SetStatus(old(View()), server, status)
    {
      if server.Some? && server.value in servers {
        servers := servers[server.value := servers[server.value].(status := status)];
      }
    }

    method UpdateResources(server: nat, resources: Resources)
      modifies `servers
      ensures View() == R.PatchServer(old(View()), server, resources)
    {
      if server in servers {
        servers := servers[server := servers[server].(resources := resources)];
      }
    }

    method SetProvisioned(server: nat, node: nat, container: nat)
      modifies `servers
      ensures View() == R.SetProvisioned(old(View()), server, node, container)
    {
      if server in servers {
        var srv := servers[server];
        srv := srv.(node := Some(node));
        srv := srv.(container := Some(container));
        srv := srv.(status := ServerStatus.Running);
        servers := servers[server := srv];
      }
    }

    /** The row goes; the foreign keys empty its tasks' `server_id` and take its backups along. */
    method DeleteRow(server: nat)
      requires server in servers
      modifies `servers, `tasks, `backups
      ensures View() == R.DeleteServer(old(View()), Some(server))
      ensures servers == old(servers) - {server}
      ensures forall b :: b in backups <==> b in old(backups) && old(backups)[b].server != server
      ensures forall b :: b in backups ==> backups[b] == old(backups)[b]
      ensures tasks.Keys == old(tasks).Keys
      ensures forall t :: t in tasks ==>
        tasks[t] == if old(tasks)[t].server == Some(server) then old(tasks)[t].(server := None) else old(tasks)[t]
    {
      servers := servers - {server};
      tasks := map t | t in tasks :: if tasks[t].server == Some(server) then tasks[t].(server := None) else tasks[t];
      backups := map b | b in backups && backups[b].server != server :: backups[b];
      assert tasks == R.Unlink(old(tasks), server);
    }

    // ----- backups

    method CreateBackup(backup: nat, server: nat)
      modifies `backups
      ensures View() == old(View()).(backups :=
        old(View()).backups[backup := BackupRow(server, Key(server, backup), BackupStatus.Creating, 0)])
    {
      backups := backups[backup := BackupRow(server, Key(server, backup), BackupStatus.Creating, 0)];
    }

    method MarkAvailable(backup: Option<nat>, size: nat)
      modifies `backups
      ensures View() == R.MarkAvailable(old(View()), backup, size)
    {
      if backup.Some? && backup.value in backups {
        var b := backups[backup.value];
        b := b.(status := BackupStatus.Available);
        b := b.(size := size);
        backups := backups[backup.value := b];
      }
    }

    method MarkBackupFailed(backup: Option<nat>)
      modifies `backups
      ensures View() == R.MarkBackupFailed(old(View()), backup)
    {
      if backup.Some? && backup.value in backups {
        backups := backups[backup.value := backups[backup.value].(status := BackupStatus.Failed)];
      }
    }

    // ----- nodes

    method AddNode(node: nat, row: NodeRow)
      modifies `nodes
      ensures View() == old(View()).(nodes := old(View()).nodes[node := row])
    {
      nodes := nodes[node := row];
    }

    method UpdateNode(node: nat, endpoint: nat, status: NodeStatus, capacity: Resources)
      modifies `nodes
      ensures View() == R.UpdateNode(old(View()), node, endpoint, status, capacity)
    {
      if node in nodes {
        var n := nodes[node];
        n := n.(endpoint := endpoint);
        n := n.(status := status);
        n := n.(capacity := capacity);
        nodes := nodes[node := n];
      }
    }

    /** The row goes; the foreign key empties the `node_id` of the servers placed there. */
    method DeleteNode(node: nat)
      modifies `nodes, `servers
      ensures View() == R.DeleteNode(old(View()), node)
      ensures nodes == old(nodes) - {node} && servers.Keys == old(servers).Keys
      ensures forall s :: s in servers ==>
        servers[s] == if old(servers)[s].node == Some(node) then old(servers)[s].(node := None) else old(servers)[s]
    {
      nodes := nodes - {node};
      servers := map s | s in servers :: if servers[s].node == Some(node) then servers[s].(node := None)
        else servers[s];
      assert servers == R.Unplace(old(servers), node);
    }

    // ----- audit

    method Record(action: Action, target: Option<nat>)
      modifies `audit
      ensures View() == R.Record(old(View()), action, target)
    {
      audit := audit + [AuditRow(action, if target.Some? then target.value else 0)];
    }
  }
}
