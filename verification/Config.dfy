/** The injector's configuration, the context computed for one request and the constants shared by the
    modes. */
module Config {
  import opened Text
  import opened Manifest

  datatype InjectionConfig = InjectionConfig(
    initContainers: seq<Container>,
    containers: seq<Container>,
    volumes: seq<Volume>)

  /** A lifecycle handler; exec is None for the handler types the injector does not support. */
  datatype Handler = Handler(exec: Option<seq<string>>)

  datatype VSIConfig = VSIConfig(
    annotationKeyPrefix: string,
    applicationLabelKey: string,
    applicationServiceLabelKey: string,
    injection: InjectionConfig,
    proxyConfig: string,
    templateBlock: string,
    templateDefaultTmpl: string,
    postStart: Option<Handler>)

  datatype ModeConfig =
    | SecretsModeConfig(secretsType: string, injectionMethod: string, template: string)
    | ProxyModeConfig(template: string)

  datatype InjectionContext = InjectionContext(
    k8sSATokenVolume: string,
    vaultImage: string,
    vaultSATokenVolume: string,
    authMethod: string,
    role: string,
    modesStatus: map<string, bool>,
    modesConfig: map<string, ModeConfig>)

  datatype Error =
    | MalformedPod
    | NoContainer
    | UnsupportedAuthMethod(authMethod: string)
    | MissingApplicationLabel
    | MissingMount(mountPath: string)
    | UnsupportedSecretsType(secretsType: string)
    | UnsupportedInjectionMethod(injectionMethod: string)
    | DynamicWithEnv
    | StaticWithAppRole
    | MissingSecretsLabels
    | PathDestinationMismatch
    | TemplateDestinationMismatch
    | HookWithJob
    | UnsupportedHook
    | NoExplicitCommand(container: string)
    | JobContainerCount

  datatype Result<+T> = Success(value: T) | Failure(error: Error) {
    predicate IsFailure() {
      Failure?
    }

    function PropagateFailure<U>(): Result<U>
      requires Failure?
    {
      Failure(error)
    }

    function Extract(): T
      requires Success?
    {
      value
    }
  }

  /* ---------- Modes, container names, paths ---------- */

  const SECRETS := "secrets"
  const PROXY := "proxy"
  const JOB := "job"

  const VAULT_AGENT_INIT := "tvsi-vault-agent-init"
  const ENV_INIT := "tvsi-env-init"
  const JOB_BABYSITTER := "tvsi-job-babysitter"
  const VAULT_AGENT := "tvsi-vault-agent"

  const PATH_ANNOTATIONS := "/metadata/annotations"
  const PATH_INIT_CONTAINERS := "/spec/initContainers"
  const PATH_CONTAINERS := "/spec/containers"
  const PATH_VOLUMES := "/spec/volumes"

  const SECRETS_VOLUME := "secrets"
  const SECRETS_DEFAULT_MOUNT_PATH := "/opt/talend/secrets"
  const K8S_SA_MOUNT_PATH := "/var/run/secrets/kubernetes.io/serviceaccount"
  const VAULT_SA_MOUNT_PATH := "/var/run/secrets/talend/vault-sidecar-injector/serviceaccount"

  const AUTH_KUBERNETES := "kubernetes"
  const AUTH_APPROLE := "approle"
  const STATIC := "static"
  const DYNAMIC := "dynamic"
  const METHOD_FILE := "file"
  const METHOD_ENV := "env"
  const STATUS_INJECTED := "injected"

  const INJECT_KEY := "inject"
  const STATUS_KEY := "status"
  const MODE_KEY := "mode"
  const WORKLOAD_KEY := "workload"
  const AUTH_KEY := "auth"
  const ROLE_KEY := "role"
  const IMAGE_KEY := "vault-image"
  const SA_TOKEN_KEY := "sa-token"
  const SECRETS_PATH_KEY := "secrets-path"
  const SECRETS_TEMPLATE_KEY := "secrets-template"
  const SECRETS_DESTINATION_KEY := "secrets-destination"
  const SECRETS_HOOK_KEY := "secrets-hook"
  const SECRETS_TYPE_KEY := "secrets-type"
  const SECRETS_METHOD_KEY := "secrets-injection-method"
  const NOTIFY_KEY := "notify"
  const PROXY_PORT_KEY := "proxy-port"

  const TEMPLATES_ENV := "VSI_SECRETS_TEMPLATES_PLACEHOLDER"
  const PROXY_CONFIG_ENV := "VSI_PROXY_CONFIG_PLACEHOLDER"
  const JOB_CONTAINER_ENV := "VSI_JOB_CNT_NAME"
  const JOB_WORKLOAD_ENV := "VSI_JOB_WORKLOAD"
  const ROLE_ENV := "VSI_VAULT_ROLE"
  const AUTH_METHOD_ENV := "VSI_VAULT_AUTH_METHOD"

  /* ---------- Lookups ---------- */

  /** A Go map lookup: the zero value when the key is absent. */
  function Lookup(m: map<string, string>, key: string): string {
    if key in m then m[key] else ""
  }

  function FullKey(cfg: VSIConfig, key: string): string {
    if cfg.annotationKeyPrefix != "" then cfg.annotationKeyPrefix + "/" + key else key
  }

  /** Qualified keys keep annotations apart. */
  lemma FullKeyInjective(cfg: VSIConfig, a: string, b: string)
    ensures FullKey(cfg, a) == FullKey(cfg, b) <==> a == b
  {
    var p := cfg.annotationKeyPrefix + "/";
    assert (p + a)[|p|..] == a && (p + b)[|p|..] == b;
  }

  function Annotation(cfg: VSIConfig, annotations: map<string, string>, key: string): string {
    Lookup(annotations, FullKey(cfg, key))
  }

  /** The values accepted as "yes" in annotations. */
  predicate Affirmative(value: string) {
    ToLower(value) in {"y", "yes", "true", "on"}
  }

  predicate Enabled(ctx: InjectionContext, mode: string) {
    mode in ctx.modesStatus && ctx.modesStatus[mode]
  }

  /** Template of a mode's computed configuration. */
  function TemplateOf(ctx: InjectionContext, mode: string): string {
    if mode in ctx.modesConfig then ctx.modesConfig[mode].template else ""
  }

  /** The statuses are those of the registered modes, and a mode with a compute function has its
      configuration exactly when it is enabled. */
  predicate ValidContext(ctx: InjectionContext) {
    && ctx.modesStatus.Keys == {SECRETS, PROXY, JOB}
    && ctx.modesConfig.Keys <= {SECRETS, PROXY}
    && (SECRETS in ctx.modesConfig <==> Enabled(ctx, SECRETS))
    && (PROXY in ctx.modesConfig <==> Enabled(ctx, PROXY))
    && (SECRETS in ctx.modesConfig ==> ctx.modesConfig[SECRETS].SecretsModeConfig?)
    && (PROXY in ctx.modesConfig ==> ctx.modesConfig[PROXY].ProxyModeConfig?)
  }

  predicate ValidConfig(cfg: VSIConfig) {
    && (forall i :: 0 <= i < |cfg.injection.initContainers| ==> ValidContainer(cfg.injection.initContainers[i]))
    && (forall i :: 0 <= i < |cfg.injection.containers| ==> ValidContainer(cfg.injection.containers[i]))
    && (forall i :: 0 <= i < |cfg.injection.volumes| ==> ValidVolume(cfg.injection.volumes[i]))
  }
}
