/** Choosing a node for a new server: aggregate what runs where, keep the online nodes that fit,
    take the least used one. */
module NodeSelector {
  import opened Wrappers
  import opened Rows
  import opened Sums

  // ----- what the query means

  predicate Counted(row: ServerRow, node: nat) {
    row.node == Some(node) && (row.status.Provisioning? || row.status.Running?)
  }

  ghost function CountedOn(servers: map<nat, ServerRow>, node: nat): map<nat, Resources> {
    map s | s in servers && Counted(servers[s], node) :: servers[s].resources
  }

  /** What the servers accounted to a node use together. */
  ghost function UsedOn(servers: map<nat, ServerRow>, node: nat): Resources {
    Total(CountedOn(servers, node))
  }

  /** Online, with room for the request beside what is used. */
  ghost predicate Fits(servers: map<nat, ServerRow>, nodes: map<nat, NodeRow>, request: Resources, node: nat) {
    && node in nodes && nodes[node].status.Online?
    && nodes[node].capacity.cpu - UsedOn(servers, node).cpu >= request.cpu
    && nodes[node].capacity.mem - UsedOn(servers, node).mem >= request.mem
  }

  /** The used share of the CPU is no larger; a node without CPU capacity (a NULL share) comes first. */
  ghost predicate NoBusier(servers: map<nat, ServerRow>, nodes: map<nat, NodeRow>, a: nat, b: nat)
    requires a in nodes && b in nodes
  {
    var capacityA, capacityB := nodes[a].capacity.cpu, nodes[b].capacity.cpu;
    capacityA == 0.0 ||
    (capacityB != 0.0 && UsedOn(servers, a).cpu / capacityA <= UsedOn(servers, b).cpu / capacityB)
  }

  /** `choice` is a fitting node no busier than any other fitting one, or None if none fits. */
  ghost predicate LeastLoaded(servers: map<nat, ServerRow>, nodes: map<nat, NodeRow>, request: Resources,
                              choice: Option<nat>)
  {
    match choice
    case None => forall n :: n in nodes ==> !Fits(servers, nodes, request, n)
    case Some(best) =>
      Fits(servers, nodes, request, best)
      && forall n :: n in nodes && Fits(servers, nodes, request, n) ==> NoBusier(servers, nodes, best, n)
  }

  // ----- the query, run over the rows in any order

  /** A table as the rows a scan meets. */
  ghost predicate Scans<R>(rows: seq<(nat, R)>, table: map<nat, R>) {
    && (forall i :: 0 <= i < |rows| ==> rows[i].0 in table && table[rows[i].0] == rows[i].1)
    && (forall i, j :: 0 <= i < j < |rows| ==> rows[i].0 != rows[j].0)
    && (forall k :: k in table ==> exists i :: 0 <= i < |rows| && rows[i].0 == k)
  }

  function UsedIn(used: map<nat, Resources>, node: nat): Resources {
    if node in used then used[node] else Nothing
  }

  /** SUM ... WHERE status IN ... GROUP BY node_id; a server without a node falls in a group no node
      joins. */
  function Aggregate(rows: seq<(nat, ServerRow)>): map<nat, Resources> {
    if rows == [] then map[]
    else
      var used := Aggregate(rows[1..]);
      var row := rows[0].1;
      if row.node.Some? && (row.status == ServerStatus.Provisioning || row.status == ServerStatus.Running)
      then used[row.node.value := Plus(row.resources, UsedIn(used, row.node.value))]
      else used
  }

  /** The WHERE clause. */
  predicate Eligible(row: NodeRow, used: Resources, request: Resources) {
    && row.status == NodeStatus.Online
    && row.capacity.cpu - used.cpu >= request.cpu
    && row.capacity.mem - used.mem >= request.mem
  }

  /** used / NULLIF(capacity, 0) */
  function Share(used: Resources, row: NodeRow): Option<real> {
    if row.capacity.cpu == 0.0 then None else Some(used.cpu / row.capacity.cpu)
  }

  /** ASC NULLS FIRST */
  predicate NotAfter(a: Option<real>, b: Option<real>) {
    a.None? || (b.Some? && a.value <= b.value)
  }

  /** The first of the eligible nodes in the order of their share. */
  function Scan(nodes: seq<(nat, NodeRow)>, used: map<nat, Resources>, request: Resources): Option<(nat, NodeRow)> {
    if nodes == [] then None
    else
      var best := Scan(nodes[1..], used, request);
      var (n, row) := nodes[0];
      if !Eligible(row, UsedIn(used, n), request) then best
      else if best.None? || NotAfter(Share(UsedIn(used, n), row),
                                     Share(UsedIn(used, best.value.0), best.value.1))
      then Some(nodes[0])
      else best
  }

  function Select(servers: seq<(nat, ServerRow)>, nodes: seq<(nat, NodeRow)>, request: Resources): Option<nat> {
    var best := Scan(nodes, Aggregate(servers), request);
    if best.Some? then Some(best.value.0) else None
  }

  lemma ScansRest<R>(rows: seq<(nat, R)>, table: map<nat, R>)
    requires rows != [] && Scans(rows, table)
    ensures rows[0].0 in table && table[rows[0].0] == rows[0].1
    ensures Scans(rows[1..], table - {rows[0].0})
  {
    var rest := table - {rows[0].0};
    forall k | k in rest ensures exists i :: 0 <= i < |rows[1..]| && rows[1..][i].0 == k {
      var i :| 0 <= i < |rows| && rows[i].0 == k;
      assert rows[1..][i - 1] == rows[i];
    }
  }

  lemma UsedOnSplit(servers: map<nat, ServerRow>, id: nat, node: nat)
    requires id in servers
    ensures UsedOn(servers, node) == if Counted(servers[id], node)
      then Plus(servers[id].resources, UsedOn(servers - {id}, node)) else UsedOn(servers - {id}, node)
  {
    if Counted(servers[id], node) {
      TotalSplit(CountedOn(servers, node), id);
      assert CountedOn(servers, node) - {id} == CountedOn(servers - {id}, node);
    } else {
      assert CountedOn(servers, node) == CountedOn(servers - {id}, node);
    }
  }

  lemma {:induction false} AggregateSums(rows: seq<(nat, ServerRow)>, servers: map<nat, ServerRow>, node: nat)
    requires Scans(rows, servers)
    ensures UsedIn(Aggregate(rows), node) == UsedOn(servers, node)
    decreases |rows|
  {
    if rows == [] {
      assert CountedOn(servers, node) == map[];
    } else {
      ScansRest(rows, servers);
      AggregateSums(rows[1..], servers - {rows[0].0}, node);
      UsedOnSplit(servers, rows[0].0, node);
    }
  }

  /** The scan returns an eligible node exactly when there is one, and then one of least share. */
  lemma {:induction false} ScanIsLeast(nodes: seq<(nat, NodeRow)>, used: map<nat, Resources>, request: Resources)
    ensures var best := Scan(nodes, used, request);
      && (best.None? <==> forall i :: 0 <= i < |nodes| ==> !Eligible(nodes[i].1, UsedIn(used, nodes[i].0), request))
      && (best.Some? ==>
            best.value in nodes && Eligible(best.value.1, UsedIn(used, best.value.0), request)
            && forall i :: 0 <= i < |nodes| && Eligible(nodes[i].1, UsedIn(used, nodes[i].0), request) ==>
                 NotAfter(Share(UsedIn(used, best.value.0), best.value.1),
                          Share(UsedIn(used, nodes[i].0), nodes[i].1)))
  {
    if nodes != [] {
      ScanIsLeast(nodes[1..], used, request);
      var best := Scan(nodes, used, request);
      forall i | 0 <= i < |nodes| && Eligible(nodes[i].1, UsedIn(used, nodes[i].0), request)
        ensures best.Some? && NotAfter(Share(UsedIn(used, best.value.0), best.value.1),
                                       Share(UsedIn(used, nodes[i].0), nodes[i].1))
      {
        if i > 0 { assert nodes[i] == nodes[1..][i - 1]; }
      }
      if best.None? {
        forall i | 0 <= i < |nodes| ensures !Eligible(nodes[i].1, UsedIn(used, nodes[i].0), request) {
          if i > 0 { assert nodes[i] == nodes[1..][i - 1]; }
        }
      }
    }
  }

  lemma EligibleFits(servers: map<nat, ServerRow>, nodes: map<nat, NodeRow>, used: Resources, request: Resources,
                     node: nat)
    requires node in nodes && used == UsedOn(servers, node)
    ensures Eligible(nodes[node], used, request) <==> Fits(servers, nodes, request, node)
  {
  }

  lemma NotAfterNoBusier(servers: map<nat, ServerRow>, nodes: map<nat, NodeRow>, a: nat, b: nat)
    requires a in nodes && b in nodes
    ensures NotAfter(Share(UsedOn(servers, a), nodes[a]), Share(UsedOn(servers, b), nodes[b])) <==>
      NoBusier(servers, nodes, a, b)
  {
  }

  /** The aggregate-then-scan query answers as the tables demand, whatever the scan order. */
  lemma SelectIsLeastLoaded(rows: seq<(nat, ServerRow)>, servers: map<nat, ServerRow>,
                            nodeRows: seq<(nat, NodeRow)>, nodes: map<nat, NodeRow>, request: Resources)
    requires Scans(rows, servers) && Scans(nodeRows, nodes)
    ensures LeastLoaded(servers, nodes, request, Select(rows, nodeRows, request))
    ensures Select(rows, nodeRows, request).Some? <==> exists n :: n in nodes && Fits(servers, nodes, request, n)
  {
    hide UsedOn, UsedIn, Aggregate, Eligible, Fits, Share, NotAfter, NoBusier, Scan;
    var used := Aggregate(rows);
    var best := Scan(nodeRows, used, request);
    ScanIsLeast(nodeRows, used, request);
    forall n | n in nodes
      ensures UsedIn(used, n) == UsedOn(servers, n)
      ensures Eligible(nodes[n], UsedIn(used, n), request) <==> Fits(servers, nodes, request, n)
    {
      AggregateSums(rows, servers, n);
      EligibleFits(servers, nodes, UsedIn(used, n), request, n);
    }
    forall n | n in nodes && Fits(servers, nodes, request, n)
      ensures best.Some? && NoBusier(servers, nodes, best.value.0, n)
    {
      var i :| 0 <= i < |nodeRows| && nodeRows[i].0 == n;
      NotAfterNoBusier(servers, nodes, best.value.0, n);
    }
  }

  /** In full: what a node uses is the sum over the provisioning and running servers placed on it; a
      node is returned exactly when some online node has room for the request beside that; and of
      those that have, it is one whose used CPU divided by its CPU capacity is least, one without any
      CPU capacity being taken first. */
  lemma SelectInFull(rows: seq<(nat, ServerRow)>, servers: map<nat, ServerRow>,
                     nodeRows: seq<(nat, NodeRow)>, nodes: map<nat, NodeRow>, request: Resources,
                     used: map<nat, Resources>)
    requires Scans(rows, servers) && Scans(nodeRows, nodes)
    requires used.Keys == nodes.Keys
    requires forall n :: n in nodes ==>
      used[n] == Total(map s | s in servers && servers[s].node == Some(n)
        && (servers[s].status == ServerStatus.Provisioning || servers[s].status == ServerStatus.Running)
        :: servers[s].resources)
    ensures var choice := Select(rows, nodeRows, request);
      var room := set n | n in nodes && nodes[n].status == NodeStatus.Online
        && used[n].cpu + request.cpu <= nodes[n].capacity.cpu && used[n].mem + request.mem <= nodes[n].capacity.mem;
      && (choice.None? <==> room == {})
      && (choice.Some? ==>
            choice.value in room
            && forall n :: n in room ==>
                 nodes[choice.value].capacity.cpu == 0.0 ||
                 (nodes[n].capacity.cpu != 0.0 &&
                  used[choice.value].cpu / nodes[choice.value].capacity.cpu <= used[n].cpu / nodes[n].capacity.cpu))
  {
    hide Select, UsedOn, Scans;
    SelectIsLeastLoaded(rows, servers, nodeRows, nodes, request);
    forall n | n in nodes ensures used[n] == UsedOn(servers, n) {
      UsedInFull(servers, n, map s | s in servers && servers[s].node == Some(n)
        && (servers[s].status == ServerStatus.Provisioning || servers[s].status == ServerStatus.Running)
        :: servers[s].resources);
    }
    var room := set n | n in nodes && nodes[n].status == NodeStatus.Online
      && used[n].cpu + request.cpu <= nodes[n].capacity.cpu && used[n].mem + request.mem <= nodes[n].capacity.mem;
    assert forall n :: n in room <==> n in nodes && Fits(servers, nodes, request, n);
    if room != {} {
      var n :| n in room;
      assert Fits(servers, nodes, request, n);
    }
  }

  lemma UsedInFull(servers: map<nat, ServerRow>, node: nat, counted: map<nat, Resources>)
    requires counted == map s | s in servers && servers[s].node == Some(node)
      && (servers[s].status == ServerStatus.Provisioning || servers[s].status == ServerStatus.Running)
      :: servers[s].resources
    ensures UsedOn(servers, node) == Total(counted)
  {
    assert CountedOn(servers, node) == counted;
  }
}
