/** The node agents: the containers each Docker daemon holds and the published backup objects,
    and what a request does to them when it is executed. */
module Agent {
  import opened Wrappers
  import opened Rows

  /** A container made for server `name`, on the daemon behind `endpoint`. `late` is history: the
      request that made it was carried out after its client had given up on it. */
  datatype Container = Container(endpoint: nat, name: nat, late: bool)

  /** A published backup object: the volume it was taken from and its length; `late` as above, for
      the request that wrote it last. */
  datatype Object = Object(volume: nat, size: nat, late: bool)

  /** `born` is every container ever created, `live` those that still exist. */
  datatype Cloud = Cloud(born: map<nat, Container>, live: set<nat>, objects: map<Key, Object>)

  datatype Request =
    | CreateContainer(name: nat)
    | InspectContainer(container: nat)
    | ActOn(container: nat, action: Kind)
    | RemoveContainer(container: nat)
    | RunBackup(container: nat, volume: nat, key: Key)
    | RunRestore(container: nat, volume: nat, key: Key)

  /** An HTTP status with the two fields of a body the worker reads. */
  datatype Answer = Answer(code: int, id: nat, size: nat)

  predicate Holds(cloud: Cloud, endpoint: nat, container: nat) {
    container in cloud.live && container in cloud.born && cloud.born[container].endpoint == endpoint
  }

  predicate NameTaken(cloud: Cloud, endpoint: nat, name: nat) {
    exists c :: c in cloud.live && c in cloud.born && cloud.born[c].endpoint == endpoint && cloud.born[c].name == name
  }

  /** Volumes appear with the first container of a server and are never removed. */
  predicate VolumeExists(cloud: Cloud, endpoint: nat, volume: nat) {
    exists c :: c in cloud.born && cloud.born[c].endpoint == endpoint && cloud.born[c].name == volume
  }

  /** The effect and the answer of one executed request; `id` names the container a create
      makes, `size` the bytes a backup or restore moves, `late` whether the client still waits. */
  function Serve(cloud: Cloud, endpoint: nat, request: Request, id: nat, size: nat, late: bool): (Cloud, Answer) {
    match request
    case CreateContainer(name) =>
      if NameTaken(cloud, endpoint, name) then (cloud, Answer(409, 0, 0))
      else (cloud.(born := cloud.born[id := Container(endpoint, name, late)], live := cloud.live + {id}),
            Answer(201, id, 0))
    case InspectContainer(c) =>
      (cloud, Answer(if Holds(cloud, endpoint, c) then 200 else 404, c, 0))
    case ActOn(c, _) =>
      (cloud, Answer(if Holds(cloud, endpoint, c) then 200 else 404, c, 0))
    case RemoveContainer(c) =>
      if Holds(cloud, endpoint, c) then (cloud.(live := cloud.live - {c}), Answer(204, c, 0))
      else (cloud, Answer(404, c, 0))
    case RunBackup(_, volume, key) =>
      if VolumeExists(cloud, endpoint, volume)
      then (cloud.(objects := cloud.objects[key := Object(volume, size, late)]), Answer(200, 0, size))
      else (cloud, Answer(404, 0, 0))
    case RunRestore(_, volume, key) =>
      if !VolumeExists(cloud, endpoint, volume) then (cloud, Answer(404, 0, 0))
      else if key !in cloud.objects then (cloud, Answer(503, 0, 0))
      else (cloud, Answer(200, 0, cloud.objects[key].size))
  }

  /** What the network makes of one attempt. */
  datatype Net =
    | Reply                              // executed, and the answer arrives
    | Fault(executed: bool, code: int)   // a 5xx answer, whether or not the agent acted
    | Lost(executed: bool)               // ConnectError or ReadTimeout
    | Snapped(executed: bool)            // any other transport error
    | Refused(code: int)                 // another 4xx (bad key, bad body); the agent did not act

  predicate PossibleNet(net: Net) {
    match net
    case Fault(_, code) => 500 <= code < 600
    case Refused(code) => 400 <= code < 500 && code != 404
    case _ => true
  }

  predicate Executed(net: Net) {
    match net
    case Reply => true
    case Fault(executed, _) => executed
    case Lost(executed) => executed
    case Snapped(executed) => executed
    case Refused(_) => false
  }
}
