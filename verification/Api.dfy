/** The API's requests as one step each. `_enqueue` runs before the session commits, so the job is
    in the queue already when the guard is checked and the rows are written. */
module Api {
  import opened Wrappers
  import opened Rows
  import opened Sums
  import opened Access
  import opened Agent
  import opened Jobs
  import opened Protocol
  import opened Runs
  import opened Store
  import opened Worker

  datatype ApiError = ServerNotFound | Forbidden | InvalidServerState | BackupNotFound | BackupNotReady
                    | RestoreNotAllowed | TemplateNotFound | NodeNameTaken | NodeNotFound

  /** `role` is what the resolver gave the actor: None at least when the server does not exist. */
  predicate Resolved(servers: map<nat, ServerRow>, server: nat, role: Option<Role>) {
    role.Some? ==> server in servers
  }

  predicate AtLeast(role: Option<Role>, min: Role) {
    role.Some? && Rank(role.value) >= Rank(min)
  }

  /** The request's job, waiting in the queue. */
  ghost predicate Pending(p: Panel, task: nat, kind: Kind, server: nat)
    reads p, p.db
  {
    p.Valid() && Uncommitted(p.St(), task) && p.jobs[task].kind == kind && p.jobs[task].origin.server == server
  }

  method Enqueue(p: Panel, task: nat, kind: Kind, origin: Origin)
    requires p.Valid() && Enabled(p.St(), Step.Enqueue(task, kind, origin))
    modifies p
    ensures p.St() == Apply(old(p.St()), Step.Enqueue(task, kind, origin)) && p.Valid()
  {
    hide Reachable;
    ghost var before := p.St();
    p.jobs := p.jobs[task := NewJob(kind, origin)];
    if kind.Provision? { p.made := p.made[origin.server := task]; }
    if kind.Backup? { p.ordered := p.ordered[origin.backup := task]; }
    Extend(before, Step.Enqueue(task, kind, origin));
  }

  /** `template` says whether the template row exists, `taken` whether the owner has a server of
      that name already, which the unique constraint reports. */
  method Create(p: Panel, task: nat, server: nat, owner: nat, resources: Resources, template: bool, taken: bool)
    returns (r: Result<nat, ApiError>)
    requires Pending(p, task, Provision, server) && NonNegative(resources)
    modifies p.db
    ensures p.Valid()
    ensures r == if !template then Err(TemplateNotFound) else if taken then Err(InvalidServerState) else Ok(task)
    ensures p.St() == if r.Ok? then Apply(old(p.St()), Commit(task, owner, resources)) else old(p.St())
  {
    hide Reachable;
    ghost var before := p.St();
    if !template { return Err(TemplateNotFound); }
    if taken { return Err(InvalidServerState); }
    p.db.CreateServer(server, owner, resources);
    p.db.CreateTask(task, server, Provision, None);
    p.db.Record(Requested(Provision), Some(server));
    Extend(before, Commit(task, owner, resources));
    return Ok(task);
  }

  /** The outcome of each refusal in the order the service checks, and no change then. */
  method RequestAction(p: Panel, task: nat, server: nat, kind: Kind, role: Option<Role>) returns (r: Result<nat,
                       ApiError>)
    requires IsLifecycle(kind) && Pending(p, task, kind, server) && Resolved(p.db.servers, server, role)
    modifies p.db
    ensures p.Valid()
    ensures r == if role.None? then Err(ServerNotFound) else if !AtLeast(role, Operator) then Err(Forbidden)
      else if !Allowed(kind, old(p.db.servers)[server].status) then Err(InvalidServerState) else Ok(task)
    ensures p.St() == if r.Ok? then Apply(old(p.St()), Commit(task, 0, Nothing)) else old(p.St())
    ensures r == Err(ServerNotFound) <==> role == None
    ensures r == Err(Forbidden) <==> role == Some(Viewer)
    ensures r.Ok? <==>
      && (role == Some(Operator) || role == Some(Owner))
      && var status := old(p.db.servers)[server].status;
         match kind
         case Start => status == ServerStatus.Stopped || status == ServerStatus.Failed
         case _ => status == ServerStatus.Running
  {
    hide Reachable;
    ghost var before := p.St();
    if server !in p.db.servers || role.None? { return Err(ServerNotFound); }
    if Rank(role.value) < Rank(Operator) { return Err(Forbidden); }
    if !Allowed(kind, p.db.servers[server].status) { return Err(InvalidServerState); }
    p.db.CreateTask(task, server, kind, None);
    p.db.Record(Requested(kind), Some(server));
    Extend(before, Commit(task, 0, Nothing));
    return Ok(task);
  }

  method RequestDelete(p: Panel, task: nat, server: nat, role: Option<Role>) returns (r: Result<nat, ApiError>)
    requires Pending(p, task, Delete, server) && Resolved(p.db.servers, server, role)
    modifies p.db
    ensures p.Valid()
    ensures r == if !AtLeast(role, Owner) then Err(ServerNotFound)
      else if old(p.db.servers)[server].status.Deleting? then Err(InvalidServerState) else Ok(task)
    ensures p.St() == if r.Ok? then Apply(old(p.St()), Commit(task, 0, Nothing)) else old(p.St())
    ensures r == Err(ServerNotFound) <==> role != Some(Owner)
    ensures r.Ok? <==> role == Some(Owner) && old(p.db.servers)[server].status != ServerStatus.Deleting
  {
    hide Reachable;
    ghost var before := p.St();
    if server !in p.db.servers || role.None? { return Err(ServerNotFound); }
    if !role.value.Owner? { return Err(ServerNotFound); }
    if p.db.servers[server].status.Deleting? { return Err(InvalidServerState); }
    p.db.SetStatus(Some(server), ServerStatus.Deleting);
    p.db.CreateTask(task, server, Delete, None);
    p.db.Record(Requested(Delete), Some(server));
    Extend(before, Commit(task, 0, Nothing));
    return Ok(task);
  }

  method RequestPatch(p: Panel, server: nat, role: Option<Role>, resources: Resources) returns (r: Result<nat,
                      ApiError>)
    requires p.Valid() && Resolved(p.db.servers, server, role) && NonNegative(resources)
    modifies p.db
    ensures p.Valid()
    ensures r == if !AtLeast(role, Owner) then Err(ServerNotFound)
      else if !old(p.db.servers)[server].status.Stopped? then Err(InvalidServerState) else Ok(server)
    ensures p.St() == if r.Ok? then Apply(old(p.St()), Patch(server, resources)) else old(p.St())
    ensures r == Err(ServerNotFound) <==> role != Some(Owner)
    ensures r.Ok? <==> role == Some(Owner) && old(p.db.servers)[server].status == ServerStatus.Stopped
  {
    hide Reachable;
    ghost var before := p.St();
    if server !in p.db.servers || role.None? { return Err(ServerNotFound); }
    if !role.value.Owner? { return Err(ServerNotFound); }
    if !p.db.servers[server].status.Stopped? { return Err(InvalidServerState); }
    p.db.UpdateResources(server, resources);
    Extend(before, Patch(server, resources));
    return Ok(server);
  }

  method RequestBackup(p: Panel, task: nat, server: nat, role: Option<Role>) returns (r: Result<nat, ApiError>)
    requires Pending(p, task, Backup, server) && Resolved(p.db.servers, server, role)
    modifies p.db
    ensures p.Valid()
    ensures r == if role.None? then Err(ServerNotFound) else if !AtLeast(role,
      Operator) then Err(Forbidden) else Ok(task)
    ensures p.St() == if r.Ok? then Apply(old(p.St()), Commit(task, 0, Nothing)) else old(p.St())
    ensures r == Err(ServerNotFound) <==> role == None
    ensures r == Err(Forbidden) <==> role == Some(Viewer)
  {
    hide Reachable;
    ghost var before := p.St();
    if server !in p.db.servers || role.None? { return Err(ServerNotFound); }
    if Rank(role.value) < Rank(Operator) { return Err(Forbidden); }
    var backup := p.jobs[task].origin.backup;
    p.db.CreateBackup(backup, server);
    p.db.CreateTask(task, server, Backup, Some(backup));
    p.db.Record(Requested(Backup), Some(backup));
    Extend(before, Commit(task, 0, Nothing));
    return Ok(task);
  }

  /** The server of a restore is the one the backup row names. */
  method RequestRestore(p: Panel, task: nat, backup: nat, role: Option<Role>) returns (r: Result<nat, ApiError>)
    requires p.Valid() && Uncommitted(p.St(), task) && p.jobs[task].kind.Restore?
      && p.jobs[task].origin.backup == backup
    requires backup in p.db.backups ==>
      Resolved(p.db.servers, p.db.backups[backup].server, role)
        && p.jobs[task].origin.server == p.db.backups[backup].server
    modifies p.db
    ensures p.Valid()
    ensures r == if backup !in old(p.db.backups) then Err(BackupNotFound)
      else if role.None? then Err(ServerNotFound) else if !AtLeast(role, Owner) then Err(Forbidden)
      else if !old(p.db.backups)[backup].status.Available? then Err(BackupNotReady)
      else if !old(p.db.servers)[old(p.db.backups)[backup].server].status.Stopped? then Err(RestoreNotAllowed)
      else Ok(task)
    ensures p.St() == if r.Ok? then Apply(old(p.St()), Commit(task, 0, Nothing)) else old(p.St())
    ensures r == Err(Forbidden) <==> backup in old(p.db.backups) && (role == Some(Viewer) || role == Some(Operator))
    ensures r.Ok? <==>
      && backup in old(p.db.backups) && role == Some(Owner)
      && old(p.db.backups)[backup].status == BackupStatus.Available
      && old(p.db.servers)[old(p.db.backups)[backup].server].status == ServerStatus.Stopped
  {
    hide Reachable;
    ghost var before := p.St();
    if backup !in p.db.backups { return Err(BackupNotFound); }
    var server := p.db.backups[backup].server;
    if server !in p.db.servers || role.None? { return Err(ServerNotFound); }
    if Rank(role.value) < Rank(Owner) { return Err(Forbidden); }
    if !p.db.backups[backup].status.Available? { return Err(BackupNotReady); }
    if !p.db.servers[server].status.Stopped? { return Err(RestoreNotAllowed); }
    p.db.CreateTask(task, server, Restore, Some(backup));
    p.db.Record(Requested(Restore), Some(backup));
    Extend(before, Commit(task, 0, Nothing));
    return Ok(task);
  }

  /** `taken` says whether another node has the name, by the check or by the unique index. */
  method AddNode(p: Panel, node: nat, row: NodeRow, taken: bool) returns (r: Result<nat, ApiError>)
    requires p.Valid() && Enabled(p.St(), Step.AddNode(node, row))
    modifies p, p.db
    ensures p.Valid() && p.jobs == old(p.jobs)
    ensures r == if taken then Err(NodeNameTaken) else Ok(node)
    ensures p.St() == if r.Ok? then Apply(old(p.St()), Step.AddNode(node, row)) else old(p.St())
  {
    hide Reachable;
    ghost var before := p.St();
    if taken { return Err(NodeNameTaken); }
    p.db.AddNode(node, row);
    p.hosts := p.hosts[node := Some(row.endpoint)];
    Extend(before, Step.AddNode(node, row));
    return Ok(node);
  }

  method RemoveNode(p: Panel, node: nat) returns (r: Result<nat, ApiError>)
    requires p.Valid()
    modifies p.db
    ensures p.Valid()
    ensures r == if node in old(p.db.nodes) then Ok(node) else Err(NodeNotFound)
    ensures p.St() == if r.Ok? then Apply(old(p.St()), Step.RemoveNode(node)) else old(p.St())
    ensures r.Ok? ==>
      && p.db.nodes == old(p.db.nodes) - {node}
      && p.db.servers.Keys == old(p.db.servers).Keys
      && forall s :: s in p.db.servers ==>
           p.db.servers[s] == if old(p.db.servers)[s].node == Some(node) then old(p.db.servers)[s].(node := None)
             else old(p.db.servers)[s]
  {
    hide Reachable;
    ghost var before := p.St();
    if node !in p.db.nodes { return Err(NodeNotFound); }
    p.db.DeleteNode(node);
    Extend(before, Step.RemoveNode(node));
    return Ok(node);
  }

  /** Every given field is set; a patched endpoint is another agent's. */
  method UpdateNode(p: Panel, node: nat, endpoint: nat, status: NodeStatus, capacity: Resources)
    returns (r: Result<nat, ApiError>)
    requires p.Valid() && capacity.cpu > 0.0 && capacity.mem > 0
    modifies p, p.db
    ensures p.Valid() && p.jobs == old(p.jobs)
    ensures r == if node in old(p.db.nodes) then Ok(node) else Err(NodeNotFound)
    ensures p.St() ==
      if r.Ok? then Apply(old(p.St()), PatchNode(node, endpoint, status, capacity)) else old(p.St())
  {
    hide Reachable;
    ghost var before := p.St();
    if node !in p.db.nodes { return Err(NodeNotFound); }
    if endpoint != p.db.nodes[node].endpoint { p.hosts := p.hosts[node := None]; }
    p.db.UpdateNode(node, endpoint, status, capacity);
    Extend(before, PatchNode(node, endpoint, status, capacity));
    return Ok(node);
  }
}
