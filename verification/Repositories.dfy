/** What each repository call and each foreign key does to the tables. */
module Repositories {
  import opened Wrappers
  import opened Rows

  // ----- tasks

  function CreateTask(db: Db, task: nat, server: nat, kind: Kind, backup: Option<nat>): Db {
    db.(tasks := db.tasks[task := TaskRow(Some(server), kind, TaskStatus.Pending, false, false, backup)])
  }

  function MarkRunning(db: Db, task: nat): Db {
    if task !in db.tasks then db
    else db.(tasks := db.tasks[task := db.tasks[task].(status := TaskStatus.Running, started := true)])
  }

  function MarkSucceeded(db: Db, task: nat): Db {
    if task !in db.tasks then db
    else db.(tasks := db.tasks[task := db.tasks[task].(status := TaskStatus.Succeeded, finished := true)])
  }

  function MarkFailed(db: Db, task: nat): Db {
    if task !in db.tasks then db
    else db.(tasks := db.tasks[task := db.tasks[task].(status := TaskStatus.Failed, finished := true)])
  }

  // ----- servers

  function SetStatus(db: Db, server: Option<nat>, status: ServerStatus): Db {
    if server.None? || server.value !in db.servers then db
    else db.(servers := db.servers[server.value := db.servers[server.value].(status := status)])
  }

  function PatchServer(db: Db, server: nat, resources: Resources): Db {
    if server !in db.servers then db
    else db.(servers := db.servers[server := db.servers[server].(resources := resources)])
  }

  function SetProvisioned(db: Db, server: nat, node: nat, container: nat): Db {
    if server !in db.servers then db
    else db.(servers := db.servers[server := db.servers[server].(
                   node := Some(node), container := Some(container), status := ServerStatus.Running)])
  }

  /** Tasks of a deleted server keep their row and lose their `server_id`. */
  function Unlink(tasks: map<nat, TaskRow>, server: nat): map<nat, TaskRow> {
    map t | t in tasks :: if tasks[t].server == Some(server) then tasks[t].(server := None) else tasks[t]
  }

  /** Deleting a server row: its backups go with it, its tasks lose their `server_id`. */
  function DeleteServer(db: Db, server: Option<nat>): Db {
    if server.None? || server.value !in db.servers then db
    else db.(servers := db.servers - {server.value},
             tasks := Unlink(db.tasks, server.value),
             backups := map b | b in db.backups && db.backups[b].server != server.value :: db.backups[b])
  }

  // ----- backups

  function MarkAvailable(db: Db, backup: Option<nat>, size: nat): Db {
    if backup.None? || backup.value !in db.backups then db
    else db.(backups := db.backups[backup.value :=
                 db.backups[backup.value].(status := BackupStatus.Available, size := size)])
  }

  function MarkBackupFailed(db: Db, backup: Option<nat>): Db {
    if backup.None? || backup.value !in db.backups then db
    else db.(backups := db.backups[backup.value := db.backups[backup.value].(status := BackupStatus.Failed)])
  }

  // ----- nodes

  /** Servers placed on a deleted node keep their row and lose their `node_id`. */
  function Unplace(servers: map<nat, ServerRow>, node: nat): map<nat, ServerRow> {
    map s | s in servers :: if servers[s].node == Some(node) then servers[s].(node := None) else servers[s]
  }

  function UpdateNode(db: Db, node: nat, endpoint: nat, status: NodeStatus, capacity: Resources): Db {
    if node !in db.nodes then db
    else db.(nodes := db.nodes[node := NodeRow(endpoint, status, capacity)])
  }

  function DeleteNode(db: Db, node: nat): Db {
    db.(nodes := db.nodes - {node}, servers := Unplace(db.servers, node))
  }

  // ----- audit

  function Record(db: Db, action: Action, target: Option<nat>): Db {
    db.(audit := db.audit + [AuditRow(action, if target.Some? then target.value else 0)])
  }
}
