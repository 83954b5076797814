// Values that travel between the services of a BabyRay cluster, with the
// fields of proto/rayclient.proto that the protocol looks at.
module Types {

  type Uid = nat
  type NodeId = nat

  type Byte = b: nat | b < 256
  type Bytes = seq<Byte>

  datatype Option<+T> = None | Some(value: T)

  // A call that may come back with an error instead of a value.
  datatype Result<+T> = Ok(value: T) | Err

  // A network address; a node's host is named after its node id.
  datatype Address = Address(host: NodeId, port: nat)

  // What a task computes is a function of these three fields only.
  datatype Task = Task(name: nat, args: Bytes, kwargs: Bytes)

  // GlobalScheduleRequest. `nodeId == 0` means that no node is pinned.
  datatype Request = Request(
    uid: Uid, task: Task, uids: seq<Uid>, newObject: bool, nodeId: NodeId, localityFlag: bool)

  // What a client asks its local scheduler for.
  datatype ScheduleRequest = ScheduleRequest(task: Task, uids: seq<Uid>, nodeId: NodeId, localityFlag: bool)

  // The entry of GetObjectLocations for one object.
  datatype LocationByteTuple = LocationByteTuple(locations: seq<NodeId>, bytes: nat)

  // What an absent lineage entry becomes on the wire: every field is zero.
  const EMPTY_REQUEST := Request(0, Task(0, [], []), [], false, 0, false)

  const LOCAL_OBJECT_STORE_PORT: nat := 50000

  // The address of the object store of a node.
  function StoreAddress(node: NodeId): Address {
    Address(node, LOCAL_OBJECT_STORE_PORT)
  }
}
