/**
 * The provider facade: the fixed capability set the host framework sees, and the factory
 * that turns configuration into a provider.
 */
module Provider {
  import opened Wrappers
  import opened Errors
  import opened Store
  import opened Config
  import ProviderId
  import LoadBalancers
  import NodeMetadata

  datatype Cloud = Cloud(client: Client, config: CloudConfig) {

    /** Supported: a reconciler over the configured namespace, poll settings and infra labels. */
    function LoadBalancer(): (r: (LoadBalancers.LoadBalancer, bool))
      reads config
      ensures r.1
      ensures r.0.namespace == config.namespace && r.0.client == client
      ensures r.0.config == config.loadBalancer && r.0.infraLabels == config.infraLabels
    {
      (LoadBalancers.LoadBalancer(config.namespace, client, config.loadBalancer, config.infraLabels), true)
    }

    /** The legacy per-node instance queries are not supported. */
    function Instances(): (supported: bool)
      ensures !supported
    {
      false
    }

    /** Supported: a resolver over the configured namespace and topology flag. */
    function InstancesV2(): (r: (NodeMetadata.InstancesV2, bool))
      reads config
      ensures r.1
      ensures r.0.client == client && r.0.namespace == config.namespace
      ensures r.0.zoneAndRegionEnabled == config.zoneAndRegionEnabled
    {
      (NodeMetadata.InstancesV2(client, config.namespace, config.zoneAndRegionEnabled), true)
    }

    /** Zones come from InstancesV2 metadata instead. */
    function Zones(): (supported: bool)
      ensures !supported
    {
      false
    }

    function Clusters(): (supported: bool)
      ensures !supported
    {
      false
    }

    function Routes(): (supported: bool)
      ensures !supported
    {
      false
    }

    /** The registered name, which is also the provider-ID scheme. */
    function ProviderName(): (name: string)
      ensures name == "dvp" && ProviderId.Scheme == name + "://"
    {
      ProviderId.ProviderName
    }

    function HasClusterID(): (has: bool)
      ensures has
    {
      true
    }
  }

  /** The capability matrix, and the configuration handed through unchanged to the two components. */
  lemma CapabilityMatrix(c: Cloud)
    ensures c.LoadBalancer().1 && c.InstancesV2().1
    ensures !c.Instances() && !c.Zones() && !c.Clusters() && !c.Routes()
    ensures c.HasClusterID() && c.ProviderName() == "dvp"
    ensures var lb := c.LoadBalancer().0;
      lb.namespace == c.config.namespace && lb.client == c.client
      && lb.config == c.config.loadBalancer && lb.infraLabels == c.config.infraLabels
    ensures var iv := c.InstancesV2().0;
      iv.namespace == c.config.namespace && iv.client == c.client
      && iv.zoneAndRegionEnabled == c.config.zoneAndRegionEnabled
  {
  }

  /** An empty configured namespace gives way to the kubeconfig context's namespace. */
  function WithNamespaceFallback(s: Settings, contextNamespace: string): (t: Settings)
    ensures s.namespace != "" ==> t == s
    ensures s.namespace == "" ==> t == s.(namespace := contextNamespace)
  {
    if s.namespace == "" then s.(namespace := contextNamespace) else s
  }

  /**
   * Builds the provider. `loadKubeconfig` stands for reading the kubeconfig file: it gives the
   * context namespace or the reason it failed; `client` is the client built from it.
   */
  method DvpCloudProviderFactory(source: Source, env: map<string, string>,
                                 loadKubeconfig: string -> Result<string, string>, client: Client)
    returns (r: Result<Cloud, Error>)
    ensures Load(source, env).Failure? ==> r == Failure(CloudConfigFailed(Load(source, env).error))
    ensures Load(source, env).Success? && Load(source, env).value.kubeconfigPath == "" ==>
      r == Failure(ConfigInvalid)
    ensures Load(source, env).Success? && Load(source, env).value.kubeconfigPath != "" ==>
      var s := Load(source, env).value;
      match loadKubeconfig(s.kubeconfigPath)
      case Failure(reason) => r == Failure(KubeconfigLoad(reason))
      case Success(contextNamespace) =>
        r.Success? && r.value.client == client && fresh(r.value.config)
        && r.value.config.View() == WithNamespaceFallback(s, contextNamespace)
  {
    var loaded := NewCloudConfig(source, env);
    if loaded.Failure? {
      return Failure(CloudConfigFailed(loaded.error));
    }
    var cloudConfig := loaded.value;
    var invalid := cloudConfig.Validate();
    if invalid.Some? {
      return Failure(invalid.value);
    }
    var kube := loadKubeconfig(cloudConfig.kubeconfigPath);
    if kube.Failure? {
      return Failure(KubeconfigLoad(kube.error));
    }
    if cloudConfig.namespace == "" {
      cloudConfig.namespace := kube.value;
    }
    return Success(Cloud(client, cloudConfig));
  }
}
