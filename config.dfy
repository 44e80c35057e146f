/**
 * The configuration resolver: package `init`, which picks the proxy configuration whose
 * discovery address the prober uses.
 */
module Config {
  import opened Wrappers

  /** A proxy configuration: the discovery address and, abstracted, every other setting. */
  datatype ProxyConfig = ProxyConfig(discoveryAddress: string, otherSettings: map<string, string>)

  /** The mesh configuration: its default proxy configuration and, abstracted, every other setting. */
  datatype MeshConfig = MeshConfig(defaultConfig: ProxyConfig, otherSettings: map<string, string>)

  /** The address used when the resolved configuration names none. */
  const DEFAULT_DISCOVERY_ADDRESS: string := "istiod.istio-system.svc:15012"

  /**
   * `init`: start from the built-in mesh defaults; a non-empty PROXY_CONFIG that parses replaces
   * the default proxy configuration wholesale; one that does not parse returns at once, so the
   * defaults stay exactly as they were; otherwise an empty discovery address gets the fallback.
   * `defaults` stands for `mesh.DefaultMeshConfig()`, `proxyConfigEnv` for the variable's value
   * ("" when unset) and `applyYaml` for the YAML parser.
   */
  method Init(defaults: MeshConfig, proxyConfigEnv: string, applyYaml: string -> Option<ProxyConfig>)
    returns (mc: MeshConfig)
    ensures mc.otherSettings == defaults.otherSettings
    ensures proxyConfigEnv == "" ==>
      && mc.defaultConfig.otherSettings == defaults.defaultConfig.otherSettings
      && (defaults.defaultConfig.discoveryAddress != "" ==> mc == defaults)
      && (defaults.defaultConfig.discoveryAddress == "" ==>
            mc.defaultConfig.discoveryAddress == DEFAULT_DISCOVERY_ADDRESS)
    ensures proxyConfigEnv != "" && applyYaml(proxyConfigEnv).Some? ==>
      var parsed := applyYaml(proxyConfigEnv).value;
      && mc.defaultConfig.otherSettings == parsed.otherSettings
      && mc.defaultConfig.discoveryAddress ==
           (if parsed.discoveryAddress == "" then DEFAULT_DISCOVERY_ADDRESS else parsed.discoveryAddress)
    ensures proxyConfigEnv != "" && applyYaml(proxyConfigEnv).None? ==> mc == defaults
    ensures mc.defaultConfig.discoveryAddress == ""
      <==> proxyConfigEnv != "" && applyYaml(proxyConfigEnv).None? && defaults.defaultConfig.discoveryAddress == ""
  {
    mc := defaults;
    if proxyConfigEnv != "" {
      var proxyConfig := applyYaml(proxyConfigEnv);
      if proxyConfig.None? {
        // the parse error is logged and init returns before the fallback below
        return;
      }
      mc := mc.(defaultConfig := proxyConfig.value);
    }
    if mc.defaultConfig.discoveryAddress == "" {
      mc := mc.(defaultConfig := mc.defaultConfig.(discoveryAddress := DEFAULT_DISCOVERY_ADDRESS));
    }
  }
}
