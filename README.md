# dvp-cloud-controller-manager — a Dafny model of the convergence core

This project models the cloud provider that lets a Kubernetes control plane use virtual machines
of the Deckhouse Virtualization Platform (DVP) as cloud instances and load balancers. It covers:

- **Provider ID codec** (`provider_id.dfy`, module `ProviderId`): `dvp://<name>` encoding,
  and decoding anchored at both ends to the grammar `dvp://[0-9A-Za-z_-]+`.
- **Instance lookup** (`instance_getter.dfy`, module `InstanceLookup`): the VM lookup by name
  or by provider ID. A store "not found" becomes `InstanceNotFound`.
- **Instance metadata resolver** (`instances_v2.dfy`, module `NodeMetadata`): existence and
  shutdown checks, the address policy, the optional region/zone lookup, and the metadata record.
- **Load balancer reconciler** (`loadbalancer.dfy`, module `LoadBalancers`): create, port
  update, bounded poll for ingress, and delete of the backing LoadBalancer Service.
- **Configuration** (`config.dfy`, module `Config`): defaults, the decoded-document overlay,
  the environment overlay and `Validate`.
- **Provider facade** (`cloud.dfy`, module `Provider`): the capability set and the factory.

Supporting modules: `Wrappers` (Option, Result), `Errors` (one error type for the system),
`Objects` (the object fields read or written) and `Store`.

The backing store behind `client.Client` is the class `Store.Client`. It holds:
- three maps from (namespace, name) to Service, VirtualMachine and Node;
- a fixed fault oracle, `faults`: a call listed there fails with a transport error;
- a log of every create, update and delete issued, successful or not.

Reads are functions, so a lookup provably changes nothing. "No write issued" is stated as an
unchanged log. Objects are stored verbatim.

The poll after a create checks the created object, then re-fetches. What the k-th re-fetch finds
comes from the platform, which the reconciler does not control. It is the parameter
`observe(k)`: a found Service, nothing, or a fetch failure. The number of checks is
`PollBudget(config)`.

`setEnv` and the factory's namespace fallback change a `CloudConfig` in place. So `CloudConfig`
is a class, kept in step with the value `Settings` through `View()`. The pure functions
`ApplyDocument`, `ApplyEnv` and `Load` specify its methods.

Three behaviours of the code that the model keeps:
- after a create, a poll that runs out of checks fails with `PollTimeout`, the poll helper's
  deadline error;
- when a backing Service exists, Ensure returns its status together with the port update's
  error;
- the address fallback removes repeated entries, as the node helper does.

## Model

| member | source | states |
|---|---|---|
| ProviderId.GetProviderID | pkg/provider/cloud.go:133-135 | the provider ID is exactly "dvp://" followed by the instance name |
| ProviderId.ParseProviderID | pkg/provider/cloud.go:137-146 | success yields a non-empty token that re-encodes to the input; every failure is `InvalidProviderID` of the input |
| ProviderId.ParseOfGet | pkg/provider/cloud.go:133-146 | decoding the encoding of any token returns that token |
| ProviderId.GetOfParse | pkg/provider/cloud.go:137-146 | whatever decodes re-encodes to the same string, with a non-empty token |
| ProviderId.ParseAcceptsGrammar | pkg/provider/cloud.go:137-144 | decoding succeeds iff the string is "dvp://" plus a token and nothing else |
| ProviderId.GetInjective | pkg/provider/cloud.go:133-135 | distinct instance names never share a provider ID |
| ProviderId.NotTokenAt | pkg/provider/cloud.go:137 | one character outside `[0-9A-Za-z_-]` disqualifies a token |
| ProviderId.ParseRejectsOtherSchemes | pkg/provider/cloud.go:137-144 | "aws://", "dvp:/" and "xdvp://" prefixes are rejected |
| ProviderId.ParseRejectsBadTokens | pkg/provider/cloud.go:137-144 | an empty token, "/" in the token and trailing text are rejected |
| ProviderId.ParseAcceptsExample | pkg/provider/cloud.go:137-146 | "dvp://worker-0_A" decodes to "worker-0_A" |
| InstanceLookup.InstanceGetter.GetByName | pkg/provider/instance_getter.go:24-34 | returns the stored VM when the read succeeds; store NotFound becomes `InstanceNotFound`, exactly; any other error is returned unchanged |
| InstanceLookup.InstanceGetter.GetByProviderID | pkg/provider/instance_getter.go:36-42 | a malformed ID gives the parse error; a well-formed one is a lookup by the decoded name |
| InstanceLookup.GetByNameFindsStored | pkg/provider/instance_getter.go:24-34 | a stored VM whose read does not fail is returned |
| InstanceLookup.GetByNameMissing | pkg/provider/instance_getter.go:27-30 | an absent VM whose read does not fail gives `InstanceNotFound` |
| InstanceLookup.GetByProviderIDOfName | pkg/provider/instance_getter.go:36-42 | looking up `GetProviderID(name)` is looking up `name` |
| InstanceLookup.GetByProviderIDMalformed | pkg/provider/instance_getter.go:36-40 | a string outside the grammar fails the same way whatever the store holds, so no read matters |
| NodeMetadata.InstancesV2.InstanceExists | pkg/provider/instances_v2.go:20-30 | true iff the lookup succeeds, false iff it reports `InstanceNotFound`, and every other lookup error is returned |
| NodeMetadata.InstanceExistsMalformed | pkg/provider/instances_v2.go:20-28 | a malformed provider ID is an error, not a missing instance |
| NodeMetadata.InstancesV2.InstanceShutdown | pkg/provider/instances_v2.go:32-39 | true iff the VM's phase is Stopped; every lookup error is returned |
| NodeMetadata.InstanceShutdownMissing | pkg/provider/instances_v2.go:32-37 | a missing instance is an error for InstanceShutdown |
| NodeMetadata.InstancesV2.GetNodeAddresses | pkg/provider/instances_v2.go:61-80 | a live IP gives exactly one InternalIP entry; with no IP, the InternalIP entries of the previous addresses, in order, each kept at its first occurrence among them; all entries InternalIP; one entry, or at most one per previous entry |
| NodeMetadata.NodeAddresses | pkg/provider/instances_v2.go:61-80 | every entry is InternalIP; a live IP gives exactly that one entry |
| NodeMetadata.InternalOnlyInOrder | pkg/provider/instances_v2.go:73-75 | the filter's result is a subsequence of its input, order kept |
| NodeMetadata.DedupInOrder | pkg/provider/instances_v2.go:75 | dropping repeats leaves a subsequence of the input, order kept, each entry taken at its first occurrence |
| NodeMetadata.NodeAddressesInOrder | pkg/provider/instances_v2.go:72-78 | with no live IP the result is a subsequence of the previous addresses, in their original order |
| NodeMetadata.NodeAddressesShape | pkg/provider/instances_v2.go:61-80 | every policy result is InternalIP and has no repeats; with no IP it holds exactly the previous InternalIP entries |
| NodeMetadata.NodeAddressesKeepsDistinctInternal | pkg/provider/instances_v2.go:72-78 | distinct previous InternalIP entries are returned unchanged when the VM reports no IP |
| NodeMetadata.InternalOnlyMembers | pkg/provider/instances_v2.go:73-75 | the filter keeps exactly the InternalIP entries and never grows the list |
| NodeMetadata.InternalOnlyOfInternal | pkg/provider/instances_v2.go:73-75 | a list of InternalIP entries passes the filter whole |
| NodeMetadata.DedupMembers | pkg/provider/instances_v2.go:75 | dropping repeats keeps every address and never grows the list |
| NodeMetadata.DedupNoRepeats | pkg/provider/instances_v2.go:75 | after dropping repeats no (type, address) pair occurs twice |
| NodeMetadata.DedupOfDistinct | pkg/provider/instances_v2.go:75 | a list without repeats is left as it is |
| NodeMetadata.InstancesV2.GetRegionAndZone | pkg/provider/instances_v2.go:82-103 | disabled: ("", "") whatever the store holds; enabled: a failed read of the cluster-scoped Node is returned, otherwise the topology labels or "" |
| NodeMetadata.InstancesV2.InstanceMetadata | pkg/provider/instances_v2.go:41-58 | a lookup or topology error aborts with that error; otherwise the provider ID of the VM's name, the policy addresses, region and zone |
| LoadBalancers.RemoveDashes | pkg/provider/loadblancer.go:48-51 | no "-" is left; every other character keeps its number of occurrences |
| LoadBalancers.RemoveDashesConcat | pkg/provider/loadblancer.go:48-51 | removal works piece by piece over a concatenation, so the remaining characters keep their order |
| LoadBalancers.RemoveDashesNoDash | pkg/provider/loadblancer.go:48-51 | a string without "-" is left exactly as it is |
| LoadBalancers.DefaultLoadBalancerName | pkg/provider/loadblancer.go:48-51 | the backing name is non-empty, at most 32 characters, starts with "a" and has no "-" |
| LoadBalancers.LoadBalancer.GetLoadBalancerName | pkg/provider/loadblancer.go:48-51 | the backing name is non-empty, at most 32 characters, starts with "a" and has no "-" |
| LoadBalancers.NameIgnoresClusterName | pkg/provider/loadblancer.go:48-51 | the backing name does not depend on the cluster name |
| LoadBalancers.LoadBalancer.GetLoadBalancerByName | pkg/provider/loadblancer.go:147-156 | NotFound becomes "absent" without an error; other read errors are returned; a found object is the stored one |
| LoadBalancers.LoadBalancer.GetLoadBalancer | pkg/provider/loadblancer.go:34-46 | absent gives (none, no error); present gives its status; other errors are returned |
| LoadBalancers.LoadBalancer.CreateLoadBalancerPorts | pkg/provider/loadblancer.go:158-170 | same length and order as the tenant ports; each copies name, protocol and port, targets the integer node port and has node port 0 |
| LoadBalancers.DesiredPortsExample | pkg/provider/loadblancer.go:158-170 | 80/TCP with node port 30080 maps to target 30080; adding 443/30443 appends a second entry |
| LoadBalancers.LoadBalancer.UpdateLoadBalancerPorts | pkg/provider/loadblancer.go:172-182 | equal ports: no write; otherwise exactly one Update, of the fetched object with only its ports replaced, whose error is returned |
| LoadBalancers.OverlayLabels | pkg/provider/loadblancer.go:77-79 | the merged labels have both key sets; overlay values win a clash; base values stay elsewhere |
| LoadBalancers.CreatedLabels | pkg/provider/loadblancer.go:71-79 | created labels are the tenant name, tenant namespace and cluster-name labels plus the infra labels, infra winning |
| LoadBalancers.LoadBalancer.BackingService | pkg/provider/loadblancer.go:185-212 | the object lives under (provider namespace, name), has type LoadBalancer, the given ports and labels, and no ingress yet |
| LoadBalancers.LoadBalancer.CreateLoadBalancer | pkg/provider/loadblancer.go:184-214 | exactly one Create of the backing object, whose error is returned; on success the object is stored under (namespace, name) |
| LoadBalancers.BackingServiceFields | pkg/provider/loadblancer.go:184-212 | name, provider namespace, labels, annotations, ports, type LoadBalancer, traffic policy; selector unless selector-less; optional fields only when set; no ingress |
| LoadBalancers.PollBudget | pkg/provider/loadblancer.go:87-90 | at least one check; with a positive interval and timeout, every check falls strictly before the timeout |
| LoadBalancers.DefaultPollBudget | pkg/provider/loadblancer.go:19-25 | the default 5 s interval and 300 s timeout give 60 checks |
| LoadBalancers.PollOutcome | pkg/provider/loadblancer.go:87-105 | a poll fails only by timeout or a fetch error; success returns the created object or an object a fetch within the budget actually found |
| LoadBalancers.PollUntilReady | pkg/provider/loadblancer.go:87-105 | the loop's result is the poll outcome that the lemmas below characterise |
| LoadBalancers.PollCreatedReady | pkg/provider/loadblancer.go:92-94 | a created object that already has ingress ends the poll at once, without a fetch |
| LoadBalancers.PollSuccessHasIngress | pkg/provider/loadblancer.go:91-104 | a successful poll returns an object with at least one ingress entry |
| LoadBalancers.PollFirstDecisive | pkg/provider/loadblancer.go:95-104 | absent or no-ingress fetches keep polling; the first ready fetch is returned; the first failed fetch is returned as an error |
| LoadBalancers.PollTimeoutIff | pkg/provider/loadblancer.go:87-109 | the poll times out iff every fetch within the budget is pending |
| LoadBalancers.LoadBalancer.EnsureLoadBalancer | pkg/provider/loadblancer.go:53-112 | lookup error: no write. Existing object: its status, and a port update only on drift. Absent: exactly one Create; a failed Create returns before polling; otherwise the poll decides, and the object stays stored |
| LoadBalancers.EnsureTwice | pkg/provider/loadblancer.go:53-64 | an Ensure without error appends at most one write to the log; a second Ensure then issues no write, reports no error and returns the stored status |
| LoadBalancers.LoadBalancer.UpdateLoadBalancer | pkg/provider/loadblancer.go:114-127 | any read error, NotFound included, is returned without a write; otherwise the same port update rule |
| LoadBalancers.LoadBalancer.EnsureLoadBalancerDeleted | pkg/provider/loadblancer.go:129-145 | absent: success and no Delete; read error: returned; present: exactly one Delete, whose error is returned |
| Config.CloudConfig.Default | pkg/provider/config.go:71-79 | defaults: interval 5, timeout 300, zone/region on, selector-less off, all else empty |
| Config.CloudConfig.Validate | pkg/provider/config.go:39-44 | fails with `ConfigInvalid` iff the kubeconfig path is empty |
| Config.CloudConfig.SetEnv | pkg/provider/config.go:46-53 | a variable that is set, even to "", replaces its field; an unset one leaves it; no other field changes |
| Config.ApplyEnvFrame | pkg/provider/config.go:46-53 | the environment overlay changes no field besides the kubeconfig path and the namespace |
| Config.CloudConfig.Unmarshal | pkg/provider/config.go:63-65 | scalar fields the decoded document sets replace the current ones; its labels are merged into the current labels, its values winning; the others stay |
| Config.DocumentLabelsOnDefaults | pkg/provider/config.go:56-65 | decoding onto the defaults gives exactly the document's labels, or none |
| Config.NewCloudConfig | pkg/provider/config.go:55-69 | read and decode failures are returned; otherwise a fresh config equal to defaults, then document, then environment |
| Config.NoReaderGivesDefaults | pkg/provider/config.go:55-69 | without a reader the config is the defaults with the environment applied |
| Config.EnvWinsOverDocument | pkg/provider/config.go:63-67 | a set variable wins over the document's value; an unset one leaves the document's value or "" |
| Config.EmptyDocumentKeepsDefaults | pkg/provider/config.go:57-66 | a document that sets nothing leaves the defaults |
| Provider.Cloud.LoadBalancer | pkg/provider/cloud.go:71-79 | supported; the reconciler gets the client, the configured namespace, poll settings and infra labels |
| Provider.Cloud.Instances | pkg/provider/cloud.go:81-83 | not supported |
| Provider.Cloud.InstancesV2 | pkg/provider/cloud.go:85-91 | supported; the resolver gets the client, the configured namespace and the topology flag |
| Provider.Cloud.Zones | pkg/provider/cloud.go:93-95 | not supported |
| Provider.Cloud.Clusters | pkg/provider/cloud.go:97-99 | not supported |
| Provider.Cloud.Routes | pkg/provider/cloud.go:101-103 | not supported |
| Provider.Cloud.ProviderName | pkg/provider/cloud.go:105-107 | "dvp", the same name that opens every provider ID |
| Provider.Cloud.HasClusterID | pkg/provider/cloud.go:109-111 | a cluster ID is required |
| Provider.CapabilityMatrix | pkg/provider/cloud.go:71-111 | LoadBalancer and InstancesV2 supported; Instances, Zones, Clusters, Routes not; cluster ID yes; name "dvp"; both components get the configured namespace, settings and labels unchanged |
| Provider.WithNamespaceFallback | pkg/provider/cloud.go:47-49 | a non-empty namespace is kept; an empty one becomes the kubeconfig context's |
| Provider.DvpCloudProviderFactory | pkg/provider/cloud.go:34-61 | config errors are wrapped; an empty kubeconfig path is `ConfigInvalid`; kubeconfig errors are wrapped; otherwise the provider holds the loaded config with the namespace fallback |

## Left out

- Kubeconfig and client setup are left out: `loadKubeconfig` (file reading, clientcmd), the `init` registration, scheme installation and `client.New`. The factory takes the kubeconfig outcome as a function from path to context namespace or failure, and takes the client ready-made. `Initialize` is a no-op and is left out.
- Config.CloudConfig.Unmarshal: an explicit `null` for a map field resets it to nil when decoded; the model has no such value and keeps the current labels. Decoding merges labels into a non-empty map; the one caller decodes onto the defaults, whose map is empty.
- Configuration reading and YAML decoding are left out. A reader is a `Source`: no reader, a read failure, a decode failure, or a decoded `Document` whose fields are `Some` exactly when the text sets them. `os.LookupEnv` is a map passed in.
- Logging (`klog`) is left out: it only has side effects.
- Contexts, cancellation and wall-clock time are left out. The poll is a count of checks over successive fetch answers.
- LoadBalancers.PollBudget: the check count is derived from the settings as ceil(timeout/interval), at least 1. With a non-positive interval and a positive timeout the real poll spins until the deadline, so its count depends on the clock; the model grants one check there. The settings are also assumed to fit a nanosecond `time.Duration`, at most 9223372036 s. Go multiplies them into int64 nanoseconds, which wrap silently. A timeout past that bound can turn into a deadline already passed, leaving only the immediate check, where the model counts ceil(timeout/interval) checks.
- LoadBalancers.PollUntilReady: what a re-fetch sees is a parameter. The platform's changes to the live object (such as assigning ingress) are not written into the model's store. So EnsureTwice does not claim that the two calls report the same status: the second reports the stored status.
- Concurrency is left out: parallel calls, write conflicts and resourceVersion checks. The store keeps objects as written. Create and Update do not copy the server's response back into the caller's object.
- LoadBalancers.LoadBalancer.UpdateLoadBalancerPorts: port equality is order-sensitive sequence equality, with nil and empty lists equal. A real API server fills in the node ports of a LoadBalancer Service, and the desired ports carry node port 0. Against such a server the comparison would differ on every call. The model keeps objects verbatim and does not capture this.
- LoadBalancers.DefaultLoadBalancerName: the host framework's naming rule is library code outside this repository. It is modelled after the cloud-provider library ("a" plus the UID without dashes, cut to 32 characters), counted in characters, not bytes. Nothing else in the model depends on more than its being a function of the tenant Service.
- NodeMetadata.AddToNodeAddresses: the node helper is library code outside this repository. It is assumed to append an address unless an entry with the same type and address is present. A `NodeAddress` holds only those two fields, so this is plain membership.
- The virtualization API's phase constants are outside this repository. `MachineStopped` is assumed to be the string "Stopped".
- Object schemas are cut down to the fields the core reads or writes. Port numbers are copied without arithmetic, so their 32-bit width does not matter.
- Reads are not logged. "Performs no store read" is stated as a result that does not depend on the store: see GetByProviderIDMalformed and GetRegionAndZone.
- Results that come in pairs in Go have one form here. `(nil, false, nil)` from GetLoadBalancer is `Success(None)`. `(false, err)` and `(nil, err)` are `Failure(err)`. The unsupported capability getters return only their boolean. Ensure keeps Go's (status, error) pair, since the existing-object path returns both.
- The `nodes` arguments of Ensure and Update are unused in the source and in the model.
