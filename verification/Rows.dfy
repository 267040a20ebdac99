/** The tables the API and the worker share, one row type per table.
    Identifiers (UUIDs) are natural numbers; a step that creates a row takes a fresh one. */
module Rows {
  import opened Wrappers

  datatype ServerStatus = Pending | Provisioning | Running | Stopped | Failed | Deleting

  datatype TaskStatus = Pending | Running | Succeeded | Failed

  datatype BackupStatus = Creating | Available | Failed

  datatype NodeStatus = Online | Offline | Drain

  datatype Kind = Provision | Start | Stop | Restart | Delete | Backup | Restore

  /** CPU cores and MiB of memory, as the canonical keys `cpuCores` and `memMb` hold them. */
  datatype Resources = Resources(cpu: real, mem: int)

  datatype ServerRow = ServerRow(owner: nat, status: ServerStatus, node: Option<nat>,
                                 container: Option<nat>, resources: Resources)

  /** `started` and `finished` say whether the two timestamps are set; `backup` is the
      payload's `backup_id`. */
  datatype TaskRow = TaskRow(server: Option<nat>, kind: Kind, status: TaskStatus,
                             started: bool, finished: bool, backup: Option<nat>)

  /** The object key `{server}/{backup}.tar.gz`. */
  datatype Key = Key(server: nat, backup: nat)

  datatype BackupRow = BackupRow(server: nat, key: Key, status: BackupStatus, size: nat)

  datatype NodeRow = NodeRow(endpoint: nat, status: NodeStatus, capacity: Resources)

  /** `Requested` stands for the row an API request writes (`server.created` for a provision),
      `Completed` for the row a finished job writes. */
  datatype Action = Requested(kind: Kind) | Completed(kind: Kind) | BackupFailed

  datatype AuditRow = AuditRow(action: Action, target: nat)

  datatype Db = Db(servers: map<nat, ServerRow>, tasks: map<nat, TaskRow>,
                   backups: map<nat, BackupRow>, nodes: map<nat, NodeRow>, audit: seq<AuditRow>)

  predicate IsLifecycle(kind: Kind) {
    kind.Start? || kind.Stop? || kind.Restart?
  }

  predicate Terminal(status: TaskStatus) {
    status.Succeeded? || status.Failed?
  }
}
