/** The proxy mode: its agent configuration and the container it needs. */
module Proxy {
  import opened Text
  import opened Manifest
  import opened Config

  const PROXY_PORT_TAG := "<VSI_PROXY_PORT>"
  const PROXY_DEFAULT_PORT := "8200"

  function ProxyPort(cfg: VSIConfig, annotations: map<string, string>): string {
    var port := Annotation(cfg, annotations, PROXY_PORT_KEY);
    if port == "" then PROXY_DEFAULT_PORT else port
  }

  function ProxyModeCompute(cfg: VSIConfig, annotations: map<string, string>): ModeConfig {
    ProxyModeConfig(ReplaceAll(cfg.proxyConfig, PROXY_PORT_TAG, ProxyPort(cfg, annotations)))
  }

  /** The agent's proxy configuration: every port placeholder replaced by the annotated port, 8200 when none
      is given. */
  lemma ProxyText(cfg: VSIConfig, annotations: map<string, string>)
    ensures var given := Annotation(cfg, annotations, "proxy-port");
      ProxyModeCompute(cfg, annotations).template ==
      Join(Split(cfg.proxyConfig, "<VSI_PROXY_PORT>"), if given == "" then "8200" else given)
  {
    ReplaceIsJoin(cfg.proxyConfig, PROXY_PORT_TAG, ProxyPort(cfg, annotations));
  }

  function ProxyContainerNames(basePath: string): seq<string> {
    if basePath == PATH_CONTAINERS then [VAULT_AGENT] else []
  }

  predicate ProxyInjects(basePath: string, name: string) {
    basePath == PATH_CONTAINERS && name == VAULT_AGENT
  }

  method ProxyModeInject(basePath: string, name: string, env: array<EnvVar>, ctx: InjectionContext)
    returns (inject: bool)
    requires PROXY in ctx.modesConfig
    modifies env
    ensures inject == ProxyInjects(basePath, name)
    ensures forall k :: 0 <= k < env.Length ==>
      env[k] == if inject && old(env[k]).name == PROXY_CONFIG_ENV
                then old(env[k]).(value := TemplateOf(ctx, PROXY)) else old(env[k])
  {
    var names := ProxyContainerNames(basePath);
    for i := 0 to |names|
      invariant name !in names[..i]
      invariant forall k :: 0 <= k < env.Length ==> env[k] == old(env[k])
    {
      if names[i] == name {
        for k := 0 to env.Length
          invariant forall j :: 0 <= j < env.Length ==>
            env[j] == if j < k && old(env[j]).name == PROXY_CONFIG_ENV
                      then old(env[j]).(value := TemplateOf(ctx, PROXY)) else old(env[j])
        {
          if env[k].name == PROXY_CONFIG_ENV {
            env[k] := env[k].(value := ctx.modesConfig[PROXY].template);
          }
        }
        return true;
      }
    }
    assert names[..|names|] == names;
    return false;
  }
}
