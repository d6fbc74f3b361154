/**
 * Instance lookup: finds the virtual machine behind a name or a provider ID and turns the
 * store's "not found" into the host framework's InstanceNotFound.
 */
module InstanceLookup {
  import opened Wrappers
  import opened Errors
  import opened Objects
  import opened Store
  import opened ProviderId

  datatype InstanceGetter = InstanceGetter(client: Client) {

    function GetByName(name: string, namespace: string): (r: Result<VirtualMachine, Error>)
      reads client
      ensures var got := client.GetMachine(Key(namespace, name));
        && (r.Success? <==> got.Success?)
        && (r.Success? ==> r.value == client.machines[Key(namespace, name)])
        && (r == Failure(InstanceNotFound) <==> got == Failure(NotFound))
        && (r.Failure? && r.error != InstanceNotFound ==> r == got)
    {
      match client.GetMachine(Key(namespace, name))
      case Success(instance) => Success(instance)
      case Failure(err) => if err == NotFound then Failure(InstanceNotFound) else Failure(err)
    }

    function GetByProviderID(providerID: string, namespace: string): (r: Result<VirtualMachine, Error>)
      reads client
      ensures ParseProviderID(providerID).Failure? ==> r == Failure(InvalidProviderID(providerID))
      ensures ParseProviderID(providerID).Success? ==> r == GetByName(ParseProviderID(providerID).value, namespace)
    {
      match ParseProviderID(providerID)
      case Failure(err) => Failure(err)
      case Success(instanceName) => GetByName(instanceName, namespace)
    }
  }

  /** A stored machine whose read does not fail is found by name. */
  lemma GetByNameFindsStored(g: InstanceGetter, name: string, namespace: string)
    requires Key(namespace, name) in g.client.machines
    requires Get(MachineKind, Key(namespace, name)) !in g.client.faults
    ensures g.GetByName(name, namespace) == Success(g.client.machines[Key(namespace, name)])
  {
  }

  /** An absent machine whose read does not fail is reported as InstanceNotFound. */
  lemma GetByNameMissing(g: InstanceGetter, name: string, namespace: string)
    requires Key(namespace, name) !in g.client.machines
    requires Get(MachineKind, Key(namespace, name)) !in g.client.faults
    ensures g.GetByName(name, namespace) == Failure(InstanceNotFound)
  {
  }

  /** Looking up an encoded name is looking up the name itself. */
  lemma GetByProviderIDOfName(g: InstanceGetter, name: string, namespace: string)
    requires IsToken(name)
    ensures g.GetByProviderID(GetProviderID(name), namespace) == g.GetByName(name, namespace)
  {
    ParseOfGet(name);
  }

  /** A malformed provider ID fails the same way whatever the store holds. */
  lemma GetByProviderIDMalformed(g: InstanceGetter, h: InstanceGetter, providerID: string, namespace: string)
    requires !InGrammar(providerID)
    ensures g.GetByProviderID(providerID, namespace) == h.GetByProviderID(providerID, namespace)
    ensures g.GetByProviderID(providerID, namespace) == Failure(InvalidProviderID(providerID))
  {
    ParseAcceptsGrammar(providerID);
  }
}
