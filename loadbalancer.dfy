/**
 * The load balancer reconciler. For a tenant Service it keeps one backing Service of type
 * LoadBalancer in the provider's namespace: created on the first Ensure, its ports updated
 * in place when they drift, deleted on teardown. After a create it polls, a bounded number
 * of times, until the platform reports an ingress point.
 */
module LoadBalancers {
  import opened Wrappers
  import opened Errors
  import opened Objects
  import opened Store
  import opened Config

  const ClusterNameLabel: string := "cluster.x-k8s.io/cluster-name"
  const TenantServiceNameLabel: string := "cluster.x-k8s.io/tenant-service-name"
  const TenantServiceNamespaceLabel: string := "cluster.x-k8s.io/tenant-service-namespace"

  /** The longest load balancer name the naming rule produces. */
  const MaxNameLength: nat := 32

  function RemoveDashes(s: string): (r: string)
    ensures '-' !in r && |r| <= |s|
    ensures forall c :: c in r <==> c in s && c != '-'
    ensures multiset(r) == multiset(s)['-' := 0]
  {
    if s == [] then []
    else
      assert s == [s[0]] + s[1..];
      (if s[0] == '-' then [] else [s[0]]) + RemoveDashes(s[1..])
  }

  /** Dashes are removed piece by piece and the rest keeps its order: removal distributes over concatenation. */
  lemma {:induction false} RemoveDashesConcat(a: string, b: string)
    ensures RemoveDashes(a + b) == RemoveDashes(a) + RemoveDashes(b)
    decreases |a|
  {
    if a == [] {
      assert a + b == b;
    } else {
      assert (a + b)[1..] == a[1..] + b;
      RemoveDashesConcat(a[1..], b);
    }
  }

  /** A string without dashes is left exactly as it is. */
  lemma {:induction false} RemoveDashesNoDash(s: string)
    requires '-' !in s
    ensures RemoveDashes(s) == s
    decreases |s|
  {
    if s != [] {
      RemoveDashesNoDash(s[1..]);
    }
  }

  /**
   * The host framework's default naming rule: "a" followed by the Service's UID without its
   * dashes, cut to 32 characters. It depends on nothing but the UID.
   */
  function DefaultLoadBalancerName(service: Service): (name: string)
    ensures 0 < |name| <= MaxNameLength && name[0] == 'a' && '-' !in name
  {
    var ret := RemoveDashes("a" + service.meta.uid);
    assert ("a" + service.meta.uid)[1..] == service.meta.uid;
    if |ret| > MaxNameLength as int then ret[..MaxNameLength] else ret
  }

  /** A backing port: the tenant's name, protocol and port, forwarded to the tenant's node port. */
  function DesiredPort(p: ServicePort): ServicePort {
    ServicePort(p.name, p.protocol, p.port, Int(p.nodePort), 0)
  }

  function DesiredPorts(ps: seq<ServicePort>): seq<ServicePort> {
    seq(|ps|, i requires 0 <= i < |ps| => DesiredPort(ps[i]))
  }

  /** The zero value of a port, as a freshly allocated slice holds it. */
  const ZeroPort: ServicePort := ServicePort("", "", 0, Int(0), 0)

  function WithPorts(svc: Service, ports: seq<ServicePort>): Service {
    svc.(spec := svc.spec.(ports := ports))
  }

  /** The labels that select the cluster's virtual machines. */
  function SelectorLabels(clusterName: string): map<string, string> {
    map[ClusterNameLabel := clusterName]
  }

  /** The back-reference labels stamped on a backing Service before the infra labels. */
  function TenantLabels(service: Service, clusterName: string): map<string, string> {
    map[TenantServiceNameLabel := service.meta.name,
        TenantServiceNamespaceLabel := service.meta.namespace,
        ClusterNameLabel := clusterName]
  }

  /** Copies every entry of `overlay` over `base`, one key at a time. */
  method OverlayLabels(base: map<string, string>, overlay: map<string, string>) returns (m: map<string, string>)
    ensures m.Keys == base.Keys + overlay.Keys
    ensures forall k :: k in overlay ==> m[k] == overlay[k]
    ensures forall k :: k in base && k !in overlay ==> m[k] == base[k]
    ensures m == base + overlay
  {
    m := base;
    var todo := overlay.Keys;
    while todo != {}
      invariant todo <= overlay.Keys
      invariant m.Keys == base.Keys + (overlay.Keys - todo)
      invariant forall k :: k in overlay && k !in todo ==> m[k] == overlay[k]
      invariant forall k :: k in base && (k !in overlay || k in todo) ==> m[k] == base[k]
      decreases todo
    {
      var k :| k in todo;
      m := m[k := overlay[k]];
      todo := todo - {k};
    }
  }

  function HasIngress(svc: Service): bool {
    |svc.status.ingress| > 0
  }

  /** A store answer with "not found" read as "absent". */
  function AbsentIfNotFound(got: Result<Service, Error>): Result<Option<Service>, Error> {
    match got
    case Success(svc) => Success(Some(svc))
    case Failure(err) => if err == NotFound then Success(None) else Failure(err)
  }

  /**
   * How many times the poll checks: once at once, then once per interval strictly before the
   * timeout. A poll that is not given a positive interval and timeout checks once.
   */
  function PollBudget(cfg: LoadBalancerConfig): (n: nat)
    ensures n >= 1
    ensures cfg.creationPollInterval > 0 && cfg.creationPollTimeout > 0 ==>
      (n - 1) * cfg.creationPollInterval < cfg.creationPollTimeout <= n * cfg.creationPollInterval
  {
    if cfg.creationPollInterval > 0 && cfg.creationPollTimeout > 0 then
      var i, t := cfg.creationPollInterval, cfg.creationPollTimeout;
      var n := (t + i - 1) / i;
      assert (n - 1) * i < t <= n * i by {
        assert n * i <= t + i - 1 < n * i + i;
      }
      n
    else 1
  }

  /** A store answer that is a failure other than "not found". */
  predicate Broken(got: Result<Service, Error>) {
    got.Failure? && got.error != NotFound
  }

  /** What the k-th re-fetch of the poll finds in the live store. */
  datatype Fetched = Found(svc: Service) | Missing | FetchFailed(reason: string)

  predicate Ready(f: Fetched) {
    f.Found? && HasIngress(f.svc)
  }

  /** Neither ready nor failed: absent, or present without ingress. */
  predicate Pending(f: Fetched) {
    !Ready(f) && !f.FetchFailed?
  }

  /**
   * The outcome of checks k, k+1, ..., budget-1 of the poll. Each check first inspects the
   * created object and then looks at `observe(k)`, what the k-th re-fetch finds.
   */
  function PollOutcome(created: Service, observe: nat -> Fetched, budget: nat, k: nat): (r: Result<Service, Error>)
    ensures r.Failure? ==> r.error == PollTimeout || r.error.Transport?
    ensures r.Success? ==> r.value == created || exists j :: k <= j < budget && observe(j) == Found(r.value)
    decreases budget - k
  {
    if k >= budget then Failure(PollTimeout)
    else if HasIngress(created) then Success(created)
    else
      match observe(k)
      case FetchFailed(reason) => Failure(Transport(reason))
      case Missing => PollOutcome(created, observe, budget, k + 1)
      case Found(s) => if HasIngress(s) then Success(s) else PollOutcome(created, observe, budget, k + 1)
  }

  method PollUntilReady(created: Service, observe: nat -> Fetched, budget: nat) returns (r: Result<Service, Error>)
    ensures r == PollOutcome(created, observe, budget, 0)
  {
    var svc := created;
    var k := 0;
    while k < budget
      invariant k <= budget && svc == created
      invariant PollOutcome(created, observe, budget, k) == PollOutcome(created, observe, budget, 0)
    {
      if HasIngress(svc) {
        return Success(svc);
      }
      var s := observe(k);
      if s.FetchFailed? {
        return Failure(Transport(s.reason));
      }
      if s.Found? && HasIngress(s.svc) {
        svc := s.svc;
        return Success(svc);
      }
      k := k + 1;
    }
    return Failure(PollTimeout);
  }

  /** A poll that succeeds returns an object with at least one ingress point. */
  lemma {:induction false} PollSuccessHasIngress(created: Service, observe: nat -> Fetched, budget: nat, k: nat)
    ensures PollOutcome(created, observe, budget, k).Success? ==> HasIngress(PollOutcome(created, observe, budget, k).value)
    decreases budget - k
  {
    if k < budget && !HasIngress(created) {
      PollSuccessHasIngress(created, observe, budget, k + 1);
    }
  }

  /** The first re-fetch that is not pending decides the poll, if it comes within the budget. */
  lemma {:induction false} PollFirstDecisive(created: Service, observe: nat -> Fetched, budget: nat, k: nat, j: nat)
    requires !HasIngress(created)
    requires k <= j < budget && !Pending(observe(j))
    requires forall i :: k <= i < j ==> Pending(observe(i))
    ensures Ready(observe(j)) ==> PollOutcome(created, observe, budget, k) == Success(observe(j).svc)
    ensures observe(j).FetchFailed? ==> PollOutcome(created, observe, budget, k) == Failure(Transport(observe(j).reason))
    decreases j - k
  {
    if k < j {
      assert Pending(observe(k));
      PollFirstDecisive(created, observe, budget, k + 1, j);
    }
  }

  /** The poll times out exactly when every check it makes is pending. */
  lemma {:induction false} PollTimeoutIff(created: Service, observe: nat -> Fetched, budget: nat, k: nat)
    requires !HasIngress(created) && k <= budget
    ensures PollOutcome(created, observe, budget, k) == Failure(PollTimeout)
      <==> forall i :: k <= i < budget ==> Pending(observe(i))
    decreases budget - k
  {
    if k < budget {
      PollTimeoutIff(created, observe, budget, k + 1);
    }
  }

  /** A created object that already shows ingress ends the poll at its first check, without a fetch. */
  lemma PollCreatedReady(created: Service, observe: nat -> Fetched, budget: nat)
    requires HasIngress(created) && budget >= 1
    ensures PollOutcome(created, observe, budget, 0) == Success(created)
  {
  }

  /** The poll budget of the default settings: 300 s at 5 s intervals. */
  lemma DefaultPollBudget()
    ensures PollBudget(DefaultSettings().loadBalancer) == 60
  {
  }

  /** What Ensure reports: Go's (status, error) pair, either half possibly nil. */
  datatype Outcome = Outcome(status: Option<LoadBalancerStatus>, err: Option<Error>)

  datatype LoadBalancer = LoadBalancer(
    namespace: string,
    client: Client,
    config: LoadBalancerConfig,
    infraLabels: map<string, string>)
  {
    /** The backing Service's name: the host framework's rule, applied to the tenant Service alone. */
    function GetLoadBalancerName(clusterName: string, service: Service): (name: string)
      ensures 0 < |name| <= MaxNameLength && name[0] == 'a' && '-' !in name
    {
      DefaultLoadBalancerName(service)
    }

    /** Where the backing Service of `service` lives. */
    function BackingKey(clusterName: string, service: Service): Key {
      Key(namespace, GetLoadBalancerName(clusterName, service))
    }

    /** The backing Service that a create writes. */
    function BackingService(name: string, service: Service, vmLabels: map<string, string>,
                            serviceLabels: map<string, string>, ports: seq<ServicePort>): (svc: Service)
      ensures KeyOf(svc.meta) == Key(namespace, name)
      ensures svc.spec.serviceType == Objects.LoadBalancer && svc.spec.ports == ports
      ensures svc.meta.labels == serviceLabels && !HasIngress(svc)
    {
      var spec := ServiceSpec(
        ports, map[], Objects.LoadBalancer, service.spec.externalTrafficPolicy,
        [], None, "", 0);
      var spec := if !config.selectorLess then spec.(selector := vmLabels) else spec;
      var spec := if |service.spec.externalIPs| > 0 then spec.(externalIPs := service.spec.externalIPs) else spec;
      var spec := if service.spec.loadBalancerClass.Some? then spec.(loadBalancerClass := service.spec.loadBalancerClass) else spec;
      var spec := if service.spec.loadBalancerIP != "" then spec.(loadBalancerIP := service.spec.loadBalancerIP) else spec;
      var spec := if service.spec.healthCheckNodePort > 0 then spec.(healthCheckNodePort := service.spec.healthCheckNodePort) else spec;
      Service(ObjectMeta(name, namespace, "", serviceLabels, service.meta.annotations), spec, LoadBalancerStatus([]))
    }

    function GetLoadBalancerByName(name: string): (r: Result<Option<Service>, Error>)
      reads client
      ensures var got := client.GetService(Key(namespace, name));
        && (r == Success(None) <==> got == Failure(NotFound))
        && (r.Success? && r.value.Some? <==> got.Success?)
        && (got.Success? ==> r.value.value == client.services[Key(namespace, name)])
        && (r.Failure? <==> Broken(got))
        && (r.Failure? ==> r.error == got.error)
    {
      AbsentIfNotFound(client.GetService(Key(namespace, name)))
    }

    /** The status of the backing Service; None, without an error, when there is none. */
    function GetLoadBalancer(clusterName: string, service: Service): (r: Result<Option<LoadBalancerStatus>, Error>)
      reads client
      ensures var got := client.GetService(BackingKey(clusterName, service));
        && (r == Success(None) <==> got == Failure(NotFound))
        && (r.Success? && r.value.Some? <==> got.Success?)
        && (got.Success? ==> r.value.value == got.value.status)
        && (r.Failure? <==> Broken(got))
        && (r.Failure? ==> r.error == got.error)
    {
      match GetLoadBalancerByName(GetLoadBalancerName(clusterName, service))
      case Failure(err) => Failure(err)
      case Success(found) => if found.None? then Success(None) else Success(Some(found.value.status))
    }

    method CreateLoadBalancerPorts(service: Service) returns (ports: seq<ServicePort>)
      ensures |ports| == |service.spec.ports|
      ensures forall i :: 0 <= i < |ports| ==>
        var p := service.spec.ports[i];
        && ports[i].name == p.name && ports[i].protocol == p.protocol && ports[i].port == p.port
        && ports[i].targetPort == Int(p.nodePort) && ports[i].nodePort == 0
      ensures ports == DesiredPorts(service.spec.ports)
    {
      var n := |service.spec.ports|;
      var a := new ServicePort[n](_ => ZeroPort);
      for i := 0 to n
        invariant forall j :: 0 <= j < i ==> a[j] == DesiredPort(service.spec.ports[j])
        invariant forall j :: i <= j < n ==> a[j] == ZeroPort
      {
        var port := service.spec.ports[i];
        a[i] := a[i].(name := port.name);
        a[i] := a[i].(protocol := port.protocol);
        a[i] := a[i].(port := port.port);
        a[i] := a[i].(targetPort := Int(port.nodePort));
      }
      ports := a[..];
    }

    /** Writes `ports` into the fetched `service` and updates it, unless they are its ports already. */
    method UpdateLoadBalancerPorts(service: Service, ports: seq<ServicePort>) returns (err: Option<Error>)
      requires client.Valid()
      modifies client
      ensures client.Valid()
      ensures client.machines == old(client.machines) && client.nodes == old(client.nodes)
      ensures client.faults == old(client.faults)
      ensures ports == service.spec.ports ==>
        err.None? && client.writes == old(client.writes) && client.services == old(client.services)
      ensures ports != service.spec.ports ==>
        var updated := WithPorts(service, ports);
        && client.writes == old(client.writes) + [Updated(updated)]
        && err == old(client.UpdateError(updated))
        && client.services == if err.None? then old(client.services)[KeyOf(service.meta) := updated] else old(client.services)
    {
      if ports != service.spec.ports {
        var updated := WithPorts(service, ports);
        err := client.UpdateService(updated);
        return;
      }
      return None;
    }

    method CreateLoadBalancer(name: string, service: Service, vmLabels: map<string, string>,
                              serviceLabels: map<string, string>, ports: seq<ServicePort>)
      returns (svc: Service, err: Option<Error>)
      requires client.Valid()
      modifies client
      ensures client.Valid()
      ensures svc == BackingService(name, service, vmLabels, serviceLabels, ports)
      ensures client.writes == old(client.writes) + [Created(svc)]
      ensures err == old(client.CreateError(svc))
      ensures client.services == if err.None? then old(client.services)[Key(namespace, name) := svc] else old(client.services)
      ensures client.machines == old(client.machines) && client.nodes == old(client.nodes)
      ensures client.faults == old(client.faults)
    {
      svc := BackingService(name, service, vmLabels, serviceLabels, ports);
      err := client.CreateService(svc);
    }

    method EnsureLoadBalancer(clusterName: string, service: Service, nodes: seq<Node>,
                              observe: nat -> Fetched)
      returns (r: Outcome)
      requires client.Valid()
      modifies client
      ensures client.Valid()
      ensures client.machines == old(client.machines) && client.nodes == old(client.nodes)
      ensures client.faults == old(client.faults)
      // A failed lookup: the error, and no write.
      ensures var got := old(client.GetService(BackingKey(clusterName, service)));
        Broken(got) ==>
          r == Outcome(None, Some(got.error))
          && client.writes == old(client.writes) && client.services == old(client.services)
      // An existing backing Service: its status, ports updated only if they differ; never a create or delete.
      ensures var key := BackingKey(clusterName, service);
        var got := old(client.GetService(key));
        var desired := DesiredPorts(service.spec.ports);
        got.Success? ==>
          && r.status == Some(got.value.status)
          && (got.value.spec.ports == desired ==>
                r.err.None? && client.writes == old(client.writes) && client.services == old(client.services))
          && (got.value.spec.ports != desired ==>
                var updated := WithPorts(got.value, desired);
                && client.writes == old(client.writes) + [Updated(updated)]
                && r.err == old(client.UpdateError(updated))
                && client.services == if r.err.None? then old(client.services)[key := updated] else old(client.services))
      // No backing Service: exactly one create, then the poll unless the create failed.
      ensures var key := BackingKey(clusterName, service);
        var want := BackingService(key.name, service, SelectorLabels(clusterName),
                                   TenantLabels(service, clusterName) + infraLabels, DesiredPorts(service.spec.ports));
        old(client.GetService(key)) == Failure(NotFound) ==>
          && client.writes == old(client.writes) + [Created(want)]
          && (old(client.CreateError(want)).Some? ==>
                r == Outcome(None, old(client.CreateError(want))) && client.services == old(client.services))
          && (old(client.CreateError(want)).None? ==>
                && client.services == old(client.services)[key := want]
                && var polled := PollOutcome(want, observe, PollBudget(config), 0);
                r == if polled.Success? then Outcome(Some(polled.value.status), None) else Outcome(None, Some(polled.error)))
    {
      var name := GetLoadBalancerName(clusterName, service);
      var found := GetLoadBalancerByName(name);
      if found.Failure? {
        return Outcome(None, Some(found.error));
      }
      var ports := CreateLoadBalancerPorts(service);
      if found.value.Some? {
        var svc := found.value.value;
        var err := UpdateLoadBalancerPorts(svc, ports);
        return Outcome(Some(svc.status), err);
      }
      var vmLabels := SelectorLabels(clusterName);
      var svcLabels := OverlayLabels(TenantLabels(service, clusterName), infraLabels);
      var svc, err := CreateLoadBalancer(name, service, vmLabels, svcLabels, ports);
      if err.Some? {
        return Outcome(None, err);
      }
      var polled := PollUntilReady(svc, observe, PollBudget(config));
      if polled.Failure? {
        return Outcome(None, Some(polled.error));
      }
      return Outcome(Some(polled.value.status), None);
    }

    method UpdateLoadBalancer(clusterName: string, service: Service, nodes: seq<Node>) returns (err: Option<Error>)
      requires client.Valid()
      modifies client
      ensures client.Valid()
      ensures client.machines == old(client.machines) && client.nodes == old(client.nodes)
      ensures client.faults == old(client.faults)
      // Any failed lookup, "not found" included, is returned.
      ensures var got := old(client.GetService(BackingKey(clusterName, service)));
        got.Failure? ==>
          err == Some(got.error) && client.writes == old(client.writes) && client.services == old(client.services)
      ensures var key := BackingKey(clusterName, service);
        var got := old(client.GetService(key));
        var desired := DesiredPorts(service.spec.ports);
        got.Success? ==>
          && (got.value.spec.ports == desired ==>
                err.None? && client.writes == old(client.writes) && client.services == old(client.services))
          && (got.value.spec.ports != desired ==>
                var updated := WithPorts(got.value, desired);
                && client.writes == old(client.writes) + [Updated(updated)]
                && err == old(client.UpdateError(updated))
                && client.services == if err.None? then old(client.services)[key := updated] else old(client.services))
    {
      var name := GetLoadBalancerName(clusterName, service);
      var got := client.GetService(Key(namespace, name));
      if got.Failure? {
        return Some(got.error);
      }
      var ports := CreateLoadBalancerPorts(service);
      err := UpdateLoadBalancerPorts(got.value, ports);
    }

    method EnsureLoadBalancerDeleted(clusterName: string, service: Service) returns (err: Option<Error>)
      requires client.Valid()
      modifies client
      ensures client.Valid()
      ensures client.machines == old(client.machines) && client.nodes == old(client.nodes)
      ensures client.faults == old(client.faults)
      ensures var got := old(client.GetService(BackingKey(clusterName, service)));
        && (got == Failure(NotFound) ==>
              err.None? && client.writes == old(client.writes) && client.services == old(client.services))
        && (Broken(got) ==>
              err == Some(got.error) && client.writes == old(client.writes) && client.services == old(client.services))
        && (got.Success? ==>
              && client.writes == old(client.writes) + [Deleted(got.value)]
              && err == old(client.DeleteError(got.value))
              && client.services == if err.None? then old(client.services) - {BackingKey(clusterName, service)} else old(client.services))
    {
      var name := GetLoadBalancerName(clusterName, service);
      var found := GetLoadBalancerByName(name);
      if found.Failure? {
        return Some(found.error);
      }
      if found.value.Some? {
        err := client.DeleteService(found.value.value);
        return;
      }
      return None;
    }
  }

  /** The backing name depends on the tenant Service alone, never on the cluster name. */
  lemma NameIgnoresClusterName(lb: LoadBalancer, c1: string, c2: string, service: Service)
    ensures lb.GetLoadBalancerName(c1, service) == lb.GetLoadBalancerName(c2, service)
    ensures |lb.GetLoadBalancerName(c1, service)| <= MaxNameLength
  {
  }

  /** The backing Service a create writes, field by field. */
  lemma BackingServiceFields(lb: LoadBalancer, name: string, service: Service, vmLabels: map<string, string>,
                             serviceLabels: map<string, string>, ports: seq<ServicePort>)
    ensures var svc := lb.BackingService(name, service, vmLabels, serviceLabels, ports);
      && svc.meta.name == name && svc.meta.namespace == lb.namespace
      && svc.meta.labels == serviceLabels && svc.meta.annotations == service.meta.annotations
      && svc.spec.ports == ports && svc.spec.serviceType == Objects.LoadBalancer
      && svc.spec.externalTrafficPolicy == service.spec.externalTrafficPolicy
      && svc.spec.selector == (if lb.config.selectorLess then map[] else vmLabels)
      && svc.spec.externalIPs == service.spec.externalIPs
      && svc.spec.loadBalancerClass == service.spec.loadBalancerClass
      && svc.spec.loadBalancerIP == service.spec.loadBalancerIP
      && svc.spec.healthCheckNodePort == (if service.spec.healthCheckNodePort > 0 then service.spec.healthCheckNodePort else 0)
      && !HasIngress(svc)
  {
  }

  /** The labels of a created backing Service: the three back-references, with infra labels winning a clash. */
  lemma CreatedLabels(service: Service, clusterName: string, infraLabels: map<string, string>)
    ensures var labels := TenantLabels(service, clusterName) + infraLabels;
      && labels.Keys == {TenantServiceNameLabel, TenantServiceNamespaceLabel, ClusterNameLabel} + infraLabels.Keys
      && (forall k :: k in infraLabels ==> labels[k] == infraLabels[k])
      && (TenantServiceNameLabel !in infraLabels ==> labels[TenantServiceNameLabel] == service.meta.name)
      && (TenantServiceNamespaceLabel !in infraLabels ==> labels[TenantServiceNamespaceLabel] == service.meta.namespace)
      && (ClusterNameLabel !in infraLabels ==> labels[ClusterNameLabel] == clusterName)
  {
  }

  /** Desired ports forward each tenant port to its node port, in the tenant's order. */
  lemma DesiredPortsExample()
    ensures DesiredPorts([ServicePort("http", "TCP", 80, Int(8080), 30080)])
         == [ServicePort("http", "TCP", 80, Int(30080), 0)]
    ensures DesiredPorts([ServicePort("http", "TCP", 80, Int(8080), 30080), ServicePort("https", "TCP", 443, Int(8443), 30443)])
         == [ServicePort("http", "TCP", 80, Int(30080), 0), ServicePort("https", "TCP", 443, Int(30443), 0)]
  {
  }

  /**
   * Ensure is idempotent: a call that succeeds issues at most one write, and a second call
   * with the same tenant Service issues none and reports no error.
   */
  method EnsureTwice(lb: LoadBalancer, clusterName: string, service: Service, observe: nat -> Fetched)
    returns (first: Outcome, second: Outcome, ghost afterFirst: seq<Write>)
    requires lb.client.Valid()
    requires Get(ServiceKind, lb.BackingKey(clusterName, service)) !in lb.client.faults
    modifies lb.client
    ensures first.err.None? ==> old(lb.client.writes) <= afterFirst && |afterFirst| <= |old(lb.client.writes)| + 1
    ensures first.err.None? ==> second.err.None? && lb.client.writes == afterFirst
    ensures first.err.None? ==>
      lb.BackingKey(clusterName, service) in lb.client.services
      && second.status == Some(lb.client.services[lb.BackingKey(clusterName, service)].status)
  {
    first := lb.EnsureLoadBalancer(clusterName, service, [], observe);
    afterFirst := lb.client.writes;
    second := lb.EnsureLoadBalancer(clusterName, service, [], observe);
  }
}
