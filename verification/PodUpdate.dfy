/** What the webhook computes for one pod: the injection context, the patch of the pod's spec and the
    admission response. The methods of module Injector compute these functions step by step. */
module PodUpdate {
  import opened Text
  import opened JsonPatch
  import opened Manifest
  import opened Config
  import opened Modes
  import opened Secrets
  import opened Proxy
  import opened Job

  /* ---------- computeContext ---------- */

  function AllMounts(cs: seq<Container>): seq<VolumeMount> {
    if cs == [] then [] else cs[0].volumeMounts + AllMounts(cs[1..])
  }

  /** Name of the first mount at the path, or "". */
  function MountNameAt(mounts: seq<VolumeMount>, mountPath: string): string {
    if mounts == [] then ""
    else if mounts[0].mountPath == mountPath then mounts[0].name
    else MountNameAt(mounts[1..], mountPath)
  }

  function ModesStatusFor(cfg: VSIConfig, a: map<string, string>): map<string, bool> {
    var status := Status(REGISTERED, Split(Annotation(cfg, a, MODE_KEY), ","), SECRETS);
    if Annotation(cfg, a, WORKLOAD_KEY) == JOB then status[JOB := true] else status
  }

  function AuthMethod(cfg: VSIConfig, a: map<string, string>): string {
    var m := ToLower(Annotation(cfg, a, AUTH_KEY));
    if m == "" then AUTH_KUBERNETES else m
  }

  function Role(cfg: VSIConfig, labels: map<string, string>, a: map<string, string>): string {
    var role := Annotation(cfg, a, ROLE_KEY);
    if role == "" && AuthMethod(cfg, a) == AUTH_KUBERNETES then Lookup(labels, cfg.applicationLabelKey) else role
  }

  function VaultSAMountPath(cfg: VSIConfig, a: map<string, string>): string {
    var path := Annotation(cfg, a, SA_TOKEN_KEY);
    if path == "" then K8S_SA_MOUNT_PATH else TrimSuffix(path, "/token")
  }

  /** The configurations of the modes in the set; only secrets and proxy compute one, and secrets may fail. */
  function ConfigsOf(secrets: Result<ModeConfig>, proxy: ModeConfig, status: map<string, bool>, modes: set<string>)
    : Result<map<string, ModeConfig>>
    requires modes <= status.Keys
  {
    var configs: map<string, ModeConfig> := if PROXY in modes && status[PROXY] then map[PROXY := proxy] else map[];
    if SECRETS in modes && status[SECRETS] then
      var config :- secrets;
      Success(configs[SECRETS := config])
    else Success(configs)
  }

  function ModesConfigFor(cfg: VSIConfig, pod: Pod, status: map<string, bool>): Result<map<string, ModeConfig>> {
    ConfigsOf(
      SecretsConfig(cfg, pod.labels, pod.annotations), ProxyModeCompute(cfg, pod.annotations), status, status.Keys)
  }

  function ContextFor(cfg: VSIConfig, pod: Pod): Result<InjectionContext> {
    var a := pod.annotations;
    var auth, role := AuthMethod(cfg, a), Role(cfg, pod.labels, a);
    var k8sVolume := MountNameAt(AllMounts(pod.containers), K8S_SA_MOUNT_PATH);
    var vaultVolume := MountNameAt(AllMounts(pod.containers), VaultSAMountPath(cfg, a));
    if auth !in {AUTH_KUBERNETES, AUTH_APPROLE} then Failure(UnsupportedAuthMethod(auth))
    else if role == "" && auth == AUTH_KUBERNETES then Failure(MissingApplicationLabel)
    else if k8sVolume == "" then Failure(MissingMount(K8S_SA_MOUNT_PATH))
    else if vaultVolume == "" then Failure(MissingMount(VaultSAMountPath(cfg, a)))
    else
      var status := ModesStatusFor(cfg, a);
      var configs :- ModesConfigFor(cfg, pod, status);
      Success(InjectionContext(k8sVolume, Annotation(cfg, a, IMAGE_KEY), vaultVolume, auth, role, status, configs))
  }

  lemma ModesStatusKeys(cfg: VSIConfig, a: map<string, string>)
    ensures ModesStatusFor(cfg, a).Keys == {SECRETS, PROXY, JOB}
  {
    RegisteredDefault();
    ModeSelection(REGISTERED, Split(Annotation(cfg, a, MODE_KEY), ","), SECRETS, SECRETS);
  }

  lemma ContextValid(cfg: VSIConfig, pod: Pod)
    requires ContextFor(cfg, pod).Success?
    ensures ValidContext(ContextFor(cfg, pod).value)
  {
    ModesStatusKeys(cfg, pod.annotations);
  }

  /* ---------- addContainer ---------- */

  /** Would the enabled mode inject the container? */
  predicate ModeInjects(mode: string, basePath: string, name: string, ctx: InjectionContext) {
    && Enabled(ctx, mode)
    && (|| (mode == SECRETS && SecretsInjects(basePath, name, ctx))
        || (mode == PROXY && ProxyInjects(basePath, name))
        || (mode == JOB && JobInjects(basePath, name, ctx)))
  }

  predicate InjectedBy(modes: set<string>, basePath: string, name: string, ctx: InjectionContext) {
    exists m :: m in modes && ModeInjects(m, basePath, name, ctx)
  }

  predicate Wanted(basePath: string, name: string, ctx: InjectionContext) {
    InjectedBy(ctx.modesStatus.Keys, basePath, name, ctx)
  }

  /** The variable once the modes in the set have resolved it; no two modes write the same name. */
  function ModesEnv(
    e: EnvVar, modes: set<string>, basePath: string, cs: seq<Container>, name: string, ctx: InjectionContext): EnvVar
  {
    if e.name == TEMPLATES_ENV && SECRETS in modes && ModeInjects(SECRETS, basePath, name, ctx) then
      e.(value := TemplateOf(ctx, SECRETS))
    else if e.name == PROXY_CONFIG_ENV && PROXY in modes && ModeInjects(PROXY, basePath, name, ctx) then
      e.(value := TemplateOf(ctx, PROXY))
    else if JOB in modes && ModeInjects(JOB, basePath, name, ctx) && cs != [] then ResolveJobEnv(e, cs)
    else e
  }

  function ResolveEnv(e: EnvVar, basePath: string, cs: seq<Container>, name: string, ctx: InjectionContext): EnvVar {
    var r := ModesEnv(e, ctx.modesStatus.Keys, basePath, cs, name, ctx);
    if r.name == ROLE_ENV then r.(value := ctx.role)
    else if r.name == AUTH_METHOD_ENV then r.(value := ctx.authMethod)
    else r
  }

  function ResolveMount(m: VolumeMount, ctx: InjectionContext): VolumeMount {
    if m.mountPath == K8S_SA_MOUNT_PATH then m.(name := ctx.k8sSATokenVolume)
    else if m.mountPath == VAULT_SA_MOUNT_PATH then m.(name := ctx.vaultSATokenVolume)
    else m
  }

  /** The container as injected. */
  function Resolved(c: Container, basePath: string, cs: seq<Container>, ctx: InjectionContext): Container {
    c.(env := seq(|c.env|, i requires 0 <= i < |c.env| => ResolveEnv(c.env[i], basePath, cs, c.name, ctx)),
       volumeMounts := seq(|c.volumeMounts|,
           i requires 0 <= i < |c.volumeMounts| => ResolveMount(c.volumeMounts[i], ctx)),
       image := if ctx.vaultImage != "" && c.name in {VAULT_AGENT_INIT, VAULT_AGENT} then ctx.vaultImage else c.image)
  }

  /** The wanted containers of the configuration, in its order, resolved. */
  function Injected(configured: seq<Container>, basePath: string, cs: seq<Container>, ctx: InjectionContext)
    : seq<Container>
  {
    if configured == [] then []
    else
      var n := |configured| - 1;
      Injected(configured[..n], basePath, cs, ctx)
      + (if Wanted(basePath, configured[n].name, ctx) then [Resolved(configured[n], basePath, cs, ctx)] else [])
  }

  predicate JobCountError(configured: seq<Container>, basePath: string, cs: seq<Container>, ctx: InjectionContext) {
    basePath == PATH_CONTAINERS && configured != [] && Enabled(ctx, JOB) && |cs| != 1
  }

  function ContainerOps(configured: seq<Container>, basePath: string, cs: seq<Container>, ctx: InjectionContext)
    : seq<PatchOp>
  {
    InsertOps(basePath, basePath == PATH_INIT_CONTAINERS && cs == [],
              WriteAll(Injected(configured, basePath, cs, ctx), WriteContainer))
  }

  /* ---------- addStorage ---------- */

  const SECRETS_MOUNT := VolumeMount(SECRETS_VOLUME, SECRETS_DEFAULT_MOUNT_PATH, map[])

  predicate HasSecretsMount(c: Container) {
    exists i :: 0 <= i < |c.volumeMounts| && c.volumeMounts[i].name == SECRETS_VOLUME
  }

  function MountEdit(c: Container): Edit {
    if HasSecretsMount(c) then Keep
    else if c.volumeMounts == [] then Change(OP_ADD, "/volumeMounts", Arr([WriteMount(SECRETS_MOUNT)]))
    else Change(OP_ADD, "/volumeMounts/-", WriteMount(SECRETS_MOUNT))
  }

  function MountOps(cs: seq<Container>, basePath: string): seq<PatchOp> {
    EditOps(basePath, EditAll(cs, MountEdit))
  }

  predicate HasSecretsVolume(volumes: seq<Volume>) {
    exists i :: 0 <= i < |volumes| && volumes[i].name == SECRETS_VOLUME
  }

  /** The configured volumes but a secrets volume the pod already has. */
  function AddedVolumes(configured: seq<Volume>, podVolumes: seq<Volume>): seq<Volume> {
    if configured == [] then []
    else
      var n := |configured| - 1;
      AddedVolumes(configured[..n], podVolumes)
      + (if configured[n].name == SECRETS_VOLUME && HasSecretsVolume(podVolumes) then [] else [configured[n]])
  }

  function VolumeOps(configured: seq<Volume>, podVolumes: seq<Volume>): seq<PatchOp> {
    AppendOps(PATH_VOLUMES, podVolumes == [], WriteAll(AddedVolumes(configured, podVolumes), WriteVolume))
  }

  function StorageOps(cfg: VSIConfig, pod: Pod): seq<PatchOp> {
    MountOps(pod.initContainers, PATH_INIT_CONTAINERS)
    + MountOps(pod.containers, PATH_CONTAINERS)
    + VolumeOps(cfg.injection.volumes, pod.volumes)
  }

  /* ---------- updatePodSpec ---------- */

  /** Of the registered modes only secrets patches the pod's own containers. */
  function OwnContainersPatch(cfg: VSIConfig, pod: Pod, ctx: InjectionContext): Result<seq<PatchOp>> {
    if Enabled(ctx, SECRETS) then SecretsPatch(cfg, pod.containers, pod.annotations, ctx) else Success([])
  }

  function PodPatch(cfg: VSIConfig, pod: Pod): Result<seq<PatchOp>> {
    if pod.containers == [] then Failure(NoContainer)
    else
      var ctx :- ContextFor(cfg, pod);
      var own :- OwnContainersPatch(cfg, pod, ctx);
      if JobCountError(cfg.injection.containers, PATH_CONTAINERS, pod.containers, ctx) then Failure(JobContainerCount)
      else
        Success(own + StorageOps(cfg, pod)
          + ContainerOps(cfg.injection.initContainers, PATH_INIT_CONTAINERS, pod.initContainers, ctx)
          + ContainerOps(cfg.injection.containers, PATH_CONTAINERS, pod.containers, ctx))
  }

  /* ---------- mutate ---------- */

  const IGNORED_NAMESPACES := ["kube-system", "kube-public"]
  const DEFAULT_NAMESPACE := "default"

  predicate MutationRequired(cfg: VSIConfig, pod: Pod) {
    && (if pod.namespace == "" then DEFAULT_NAMESPACE else pod.namespace) !in IGNORED_NAMESPACES
    && ToLower(Annotation(cfg, pod.annotations, STATUS_KEY)) != STATUS_INJECTED
    && Affirmative(Annotation(cfg, pod.annotations, INJECT_KEY))
  }

  function AnnotationOp(target: map<string, string>, key: string, value: string): PatchOp {
    if Lookup(target, key) == "" then PatchOp(OP_ADD, PATH_ANNOTATIONS, Obj(map[key := Str(value)]))
    else PatchOp(OP_REPLACE, PATH_ANNOTATIONS + "/" + key, Str(value))
  }

  function FullPatch(cfg: VSIConfig, pod: Pod): Result<seq<PatchOp>> {
    var patch :- PodPatch(cfg, pod);
    Success(patch + [AnnotationOp(pod.annotations, FullKey(cfg, STATUS_KEY), STATUS_INJECTED)])
  }

  datatype Response = Response(allowed: bool, patch: Option<seq<PatchOp>>, error: Option<Error>)

  function Respond(cfg: VSIConfig, doc: Json): Response {
    match ReadPod(doc)
    case None => Response(false, None, Some(MalformedPod))
    case Some(pod) =>
      if !MutationRequired(cfg, pod) then Response(true, None, None)
      else
        match FullPatch(cfg, pod)
        case Failure(e) => Response(false, None, Some(e))
        case Success(patch) => Response(true, Some(patch), None)
  }
}
