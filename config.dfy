/**
 * The provider's configuration: built-in defaults, overlaid by an already-decoded YAML
 * document, then by two environment variables, and finally validated.
 */
module Config {
  import opened Wrappers
  import opened Errors

  const EnvKubeconfigPath: string := "DVP_CCM_KUBECONFIG_PATH"
  const EnvNamespace: string := "DVP_CCM_NAMESPACE"

  /** Seconds between two polls of a freshly created load balancer. */
  const DefaultCreationPollInterval: int := 5
  /** Seconds a freshly created load balancer is polled for at most (five minutes). */
  const DefaultCreationPollTimeout: int := 5 * 60

  datatype LoadBalancerConfig = LoadBalancerConfig(
    creationPollInterval: int,
    creationPollTimeout: int,
    selectorLess: bool)

  /** The value held by a CloudConfig at one moment. */
  datatype Settings = Settings(
    kubeconfigPath: string,
    loadBalancer: LoadBalancerConfig,
    namespace: string,
    zoneAndRegionEnabled: bool,
    infraLabels: map<string, string>)

  /** A decoded configuration document: a field is Some exactly when the document sets it. */
  datatype LoadBalancerDocument = LoadBalancerDocument(
    creationPollInterval: Option<int>,
    creationPollTimeout: Option<int>,
    selectorLess: Option<bool>)

  datatype Document = Document(
    kubeconfigPath: Option<string>,
    loadBalancer: Option<LoadBalancerDocument>,
    namespace: Option<string>,
    zoneAndRegionEnabled: Option<bool>,
    infraLabels: Option<map<string, string>>)

  /** What the configuration reader yields: no reader, a read failure, a decode failure or a document. */
  datatype Source = NoReader | Unreadable(reason: string) | Undecodable(reason: string) | Decoded(doc: Document)

  function DefaultSettings(): Settings {
    Settings("", LoadBalancerConfig(DefaultCreationPollInterval, DefaultCreationPollTimeout, false), "", true, map[])
  }

  function Pick<T>(given: Option<T>, current: T): T {
    if given.Some? then given.value else current
  }

  /**
   * Decoding a document onto existing settings: scalar fields the document sets replace the
   * current ones; the labels it sets are merged into the current labels, its values winning.
   */
  function ApplyDocument(s: Settings, doc: Document): Settings {
    var lb := if doc.loadBalancer.None? then s.loadBalancer else
      var d := doc.loadBalancer.value;
      LoadBalancerConfig(
        Pick(d.creationPollInterval, s.loadBalancer.creationPollInterval),
        Pick(d.creationPollTimeout, s.loadBalancer.creationPollTimeout),
        Pick(d.selectorLess, s.loadBalancer.selectorLess));
    Settings(
      Pick(doc.kubeconfigPath, s.kubeconfigPath),
      lb,
      Pick(doc.namespace, s.namespace),
      Pick(doc.zoneAndRegionEnabled, s.zoneAndRegionEnabled),
      if doc.infraLabels.Some? then s.infraLabels + doc.infraLabels.value else s.infraLabels)
  }

  /** The environment overlay: a variable that is set, even to "", replaces its field. */
  function ApplyEnv(s: Settings, env: map<string, string>): Settings {
    s.(kubeconfigPath := Pick(if EnvKubeconfigPath in env then Some(env[EnvKubeconfigPath]) else None, s.kubeconfigPath),
       namespace := Pick(if EnvNamespace in env then Some(env[EnvNamespace]) else None, s.namespace))
  }

  /** Defaults, then the document if there is one, then the environment. */
  function Load(source: Source, env: map<string, string>): Result<Settings, Error> {
    match source
    case NoReader => Success(ApplyEnv(DefaultSettings(), env))
    case Unreadable(reason) => Failure(ConfigRead(reason))
    case Undecodable(reason) => Failure(ConfigDecode(reason))
    case Decoded(doc) => Success(ApplyEnv(ApplyDocument(DefaultSettings(), doc), env))
  }

  class CloudConfig {
    var kubeconfigPath: string
    var loadBalancer: LoadBalancerConfig
    var namespace: string
    var zoneAndRegionEnabled: bool
    var infraLabels: map<string, string>

    function View(): Settings
      reads this
    {
      Settings(kubeconfigPath, loadBalancer, namespace, zoneAndRegionEnabled, infraLabels)
    }

    /** The built-in defaults. */
    constructor Default()
      ensures View() == DefaultSettings()
      ensures loadBalancer.creationPollInterval == 5 && loadBalancer.creationPollTimeout == 300
      ensures zoneAndRegionEnabled && !loadBalancer.selectorLess
      ensures kubeconfigPath == "" && namespace == "" && infraLabels == map[]
    {
      kubeconfigPath := "";
      loadBalancer := LoadBalancerConfig(DefaultCreationPollInterval, DefaultCreationPollTimeout, false);
      namespace := "";
      zoneAndRegionEnabled := true;
      infraLabels := map[];
    }

    /** Decodes a document onto this configuration. */
    method Unmarshal(doc: Document)
      modifies this
      ensures View() == ApplyDocument(old(View()), doc)
    {
      var lb := loadBalancer;
      if doc.loadBalancer.Some? {
        var d := doc.loadBalancer.value;
        if d.creationPollInterval.Some? { lb := lb.(creationPollInterval := d.creationPollInterval.value); }
        if d.creationPollTimeout.Some? { lb := lb.(creationPollTimeout := d.creationPollTimeout.value); }
        if d.selectorLess.Some? { lb := lb.(selectorLess := d.selectorLess.value); }
      }
      assert lb == ApplyDocument(View(), doc).loadBalancer;
      var labels := infraLabels;
      if doc.infraLabels.Some? { labels := labels + doc.infraLabels.value; }
      assert labels == ApplyDocument(View(), doc).infraLabels;
      if doc.kubeconfigPath.Some? { kubeconfigPath := doc.kubeconfigPath.value; }
      loadBalancer := lb;
      if doc.namespace.Some? { namespace := doc.namespace.value; }
      if doc.zoneAndRegionEnabled.Some? { zoneAndRegionEnabled := doc.zoneAndRegionEnabled.value; }
      infraLabels := labels;
    }

    /** Overlays the two environment variables; `env` stands for the process environment. */
    method SetEnv(env: map<string, string>)
      modifies this
      ensures View() == ApplyEnv(old(View()), env)
      ensures kubeconfigPath == if EnvKubeconfigPath in env then env[EnvKubeconfigPath] else old(kubeconfigPath)
      ensures namespace == if EnvNamespace in env then env[EnvNamespace] else old(namespace)
      ensures loadBalancer == old(loadBalancer) && zoneAndRegionEnabled == old(zoneAndRegionEnabled)
      ensures infraLabels == old(infraLabels)
    {
      if EnvKubeconfigPath in env {
        kubeconfigPath := env[EnvKubeconfigPath];
      }
      if EnvNamespace in env {
        namespace := env[EnvNamespace];
      }
    }

    /** A configuration without a kubeconfig path is invalid. */
    function Validate(): (err: Option<Error>)
      reads this
      ensures err.Some? <==> kubeconfigPath == ""
      ensures err.Some? ==> err.value == ConfigInvalid
    {
      if kubeconfigPath == "" then Some(ConfigInvalid) else None
    }
  }

  /** Reads the configuration: defaults, then the document if any, then the environment. */
  method NewCloudConfig(source: Source, env: map<string, string>) returns (r: Result<CloudConfig, Error>)
    ensures Load(source, env).Failure? ==> r == Failure(Load(source, env).error)
    ensures Load(source, env).Success? ==> r.Success? && fresh(r.value) && r.value.View() == Load(source, env).value
  {
    var cloudConf := new CloudConfig.Default();
    match source {
      case NoReader =>
      case Unreadable(reason) =>
        return Failure(ConfigRead(reason));
      case Undecodable(reason) =>
        return Failure(ConfigDecode(reason));
      case Decoded(doc) =>
        cloudConf.Unmarshal(doc);
    }
    cloudConf.SetEnv(env);
    return Success(cloudConf);
  }

  /** The environment overlay touches nothing but the kubeconfig path and the namespace. */
  lemma ApplyEnvFrame(s: Settings, env: map<string, string>)
    ensures var t := ApplyEnv(s, env);
      t.loadBalancer == s.loadBalancer && t.zoneAndRegionEnabled == s.zoneAndRegionEnabled
      && t.infraLabels == s.infraLabels
    ensures EnvKubeconfigPath !in env && EnvNamespace !in env ==> ApplyEnv(s, env) == s
  {
  }

  /** A variable that is set wins over the document, even when it is set to "". */
  lemma EnvWinsOverDocument(doc: Document, env: map<string, string>)
    ensures var s := Load(Decoded(doc), env).value;
      && (EnvKubeconfigPath in env ==> s.kubeconfigPath == env[EnvKubeconfigPath])
      && (EnvNamespace in env ==> s.namespace == env[EnvNamespace])
      && (EnvKubeconfigPath !in env ==> s.kubeconfigPath == Pick(doc.kubeconfigPath, ""))
      && (EnvNamespace !in env ==> s.namespace == Pick(doc.namespace, ""))
  {
  }

  /** Without a reader the settings are the defaults with the environment applied. */
  lemma NoReaderGivesDefaults(env: map<string, string>)
    ensures var s := Load(NoReader, env).value;
      && s.loadBalancer == LoadBalancerConfig(5, 300, false)
      && s.zoneAndRegionEnabled && s.infraLabels == map[]
      && s.kubeconfigPath == (if EnvKubeconfigPath in env then env[EnvKubeconfigPath] else "")
      && s.namespace == (if EnvNamespace in env then env[EnvNamespace] else "")
  {
  }

  /** A document that sets nothing leaves the defaults alone. */
  lemma EmptyDocumentKeepsDefaults()
    ensures ApplyDocument(DefaultSettings(), Document(None, None, None, None, None)) == DefaultSettings()
  {
  }

  /** On the defaults, whose label map is empty, merging the document's labels is taking them. */
  lemma DocumentLabelsOnDefaults(doc: Document)
    ensures var s := ApplyDocument(DefaultSettings(), doc);
      s.infraLabels == Pick(doc.infraLabels, map[])
  {
    if doc.infraLabels.Some? {
      assert map[] + doc.infraLabels.value == doc.infraLabels.value;
    }
  }
}
