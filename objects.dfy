/**
 * The fields of the Kubernetes and virtualization objects that the provider reads or writes.
 * A Go nil map or nil slice is the empty map or sequence; a Go pointer field is an Option.
 */
module Objects {
  import opened Wrappers

  datatype ObjectMeta = ObjectMeta(
    name: string,
    namespace: string,
    uid: string,
    labels: map<string, string>,
    annotations: map<string, string>)

  /** A port number or a named port, as in a Service's targetPort. */
  datatype IntOrString = Int(intVal: int) | Str(strVal: string)

  datatype ServicePort = ServicePort(
    name: string,
    protocol: string,
    port: int,
    targetPort: IntOrString,
    nodePort: int)

  datatype ServiceType = TypeUnset | ClusterIP | NodePort | LoadBalancer | ExternalName

  datatype ServiceSpec = ServiceSpec(
    ports: seq<ServicePort>,
    selector: map<string, string>,
    serviceType: ServiceType,
    externalTrafficPolicy: string,
    externalIPs: seq<string>,
    loadBalancerClass: Option<string>,
    loadBalancerIP: string,
    healthCheckNodePort: int)

  datatype LoadBalancerIngress = LoadBalancerIngress(ip: string, hostname: string)

  datatype LoadBalancerStatus = LoadBalancerStatus(ingress: seq<LoadBalancerIngress>)

  /** A Service; `status` is its Status.LoadBalancer. */
  datatype Service = Service(meta: ObjectMeta, spec: ServiceSpec, status: LoadBalancerStatus)

  datatype NodeAddressType = Hostname | InternalIP | ExternalIP | InternalDNS | ExternalDNS

  datatype NodeAddress = NodeAddress(addressType: NodeAddressType, address: string)

  /** A Node: its labels, Spec.ProviderID and Status.Addresses. */
  datatype Node = Node(meta: ObjectMeta, providerID: string, addresses: seq<NodeAddress>)

  datatype VirtualMachineStatus = VirtualMachineStatus(phase: string, ipAddress: string, nodeName: string)

  datatype VirtualMachine = VirtualMachine(meta: ObjectMeta, status: VirtualMachineStatus)

  /** The power phase of a stopped virtual machine. */
  const MachineStopped: string := "Stopped"

  const LabelTopologyRegion: string := "topology.kubernetes.io/region"
  const LabelTopologyZone: string := "topology.kubernetes.io/zone"
}
