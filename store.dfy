/**
 * The backing cluster store behind the generic client: objects of three kinds under
 * (namespace, name) keys, a fixed set of calls that fail with a transport error, and the
 * log of every write call issued against it.
 */
module Store {
  import opened Wrappers
  import opened Errors
  import opened Objects

  datatype Key = Key(namespace: string, name: string)

  function KeyOf(meta: ObjectMeta): Key {
    Key(meta.namespace, meta.name)
  }

  datatype Kind = ServiceKind | MachineKind | NodeKind

  /** A call against the store, as the fault oracle sees it. */
  datatype Call = Get(kind: Kind, key: Key) | Create(key: Key) | Update(key: Key) | Delete(key: Key)

  /** A write call issued against the store, whether or not it succeeded. */
  datatype Write = Created(obj: Service) | Updated(obj: Service) | Deleted(obj: Service)

  /** The answer of a get: the stored object, NotFound, or the call's transport fault. */
  function Lookup<T>(objects: map<Key, T>, faults: map<Call, string>, call: Call, key: Key): (r: Result<T, Error>)
    ensures r.Success? <==> call !in faults && key in objects
    ensures r.Success? ==> r.value == objects[key]
    ensures r.Failure? ==> IsStoreError(r.error) && (r.error == NotFound <==> call !in faults)
  {
    if call in faults then Failure(Transport(faults[call]))
    else if key in objects then Success(objects[key])
    else Failure(NotFound)
  }

  class Client {
    var services: map<Key, Service>
    var machines: map<Key, VirtualMachine>
    var nodes: map<Key, Node>
    var faults: map<Call, string>
    var writes: seq<Write>

    /** Every service is stored under its own namespace and name. */
    ghost predicate Valid()
      reads this
    {
      forall k | k in services :: KeyOf(services[k].meta) == k
    }

    constructor (services: map<Key, Service>, machines: map<Key, VirtualMachine>, nodes: map<Key, Node>,
                 faults: map<Call, string>)
      requires forall k | k in services :: KeyOf(services[k].meta) == k
      ensures Valid()
      ensures this.services == services && this.machines == machines && this.nodes == nodes
      ensures this.faults == faults && writes == []
    {
      this.services, this.machines, this.nodes := services, machines, nodes;
      this.faults, this.writes := faults, [];
    }

    function GetService(key: Key): Result<Service, Error>
      reads this
    {
      Lookup(services, faults, Get(ServiceKind, key), key)
    }

    function GetMachine(key: Key): Result<VirtualMachine, Error>
      reads this
    {
      Lookup(machines, faults, Get(MachineKind, key), key)
    }

    function GetNode(key: Key): Result<Node, Error>
      reads this
    {
      Lookup(nodes, faults, Get(NodeKind, key), key)
    }

    /** The error a create of `obj` would meet now, if any. */
    function CreateError(obj: Service): Option<Error>
      reads this
    {
      var key := KeyOf(obj.meta);
      if Create(key) in faults then Some(Transport(faults[Create(key)]))
      else if key in services then Some(AlreadyExists)
      else None
    }

    /** The error an update of `obj` would meet now, if any. */
    function UpdateError(obj: Service): Option<Error>
      reads this
    {
      var key := KeyOf(obj.meta);
      if Update(key) in faults then Some(Transport(faults[Update(key)]))
      else if key !in services then Some(NotFound)
      else None
    }

    /** The error a delete of `obj` would meet now, if any. */
    function DeleteError(obj: Service): Option<Error>
      reads this
    {
      var key := KeyOf(obj.meta);
      if Delete(key) in faults then Some(Transport(faults[Delete(key)]))
      else if key !in services then Some(NotFound)
      else None
    }

    method CreateService(obj: Service) returns (err: Option<Error>)
      requires Valid()
      modifies this
      ensures Valid()
      ensures err == old(CreateError(obj))
      ensures services == if err.None? then old(services)[KeyOf(obj.meta) := obj] else old(services)
      ensures writes == old(writes) + [Created(obj)]
      ensures machines == old(machines) && nodes == old(nodes) && faults == old(faults)
    {
      err := CreateError(obj);
      if err.None? {
        services := services[KeyOf(obj.meta) := obj];
      }
      writes := writes + [Created(obj)];
    }

    method UpdateService(obj: Service) returns (err: Option<Error>)
      requires Valid()
      modifies this
      ensures Valid()
      ensures err == old(UpdateError(obj))
      ensures services == if err.None? then old(services)[KeyOf(obj.meta) := obj] else old(services)
      ensures writes == old(writes) + [Updated(obj)]
      ensures machines == old(machines) && nodes == old(nodes) && faults == old(faults)
    {
      err := UpdateError(obj);
      if err.None? {
        services := services[KeyOf(obj.meta) := obj];
      }
      writes := writes + [Updated(obj)];
    }

    method DeleteService(obj: Service) returns (err: Option<Error>)
      requires Valid()
      modifies this
      ensures Valid()
      ensures err == old(DeleteError(obj))
      ensures services == if err.None? then old(services) - {KeyOf(obj.meta)} else old(services)
      ensures writes == old(writes) + [Deleted(obj)]
      ensures machines == old(machines) && nodes == old(nodes) && faults == old(faults)
    {
      err := DeleteError(obj);
      if err.None? {
        services := services - {KeyOf(obj.meta)};
      }
      writes := writes + [Deleted(obj)];
    }
  }
}
