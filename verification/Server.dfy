/** The webhook server object. Its injection configuration lives on the heap and is shared by all
    requests; no method has a modifies clause that could reach it. */
module Server {
  import opened Text
  import opened JsonPatch
  import opened Manifest
  import opened Config
  import opened Modes
  import opened Secrets
  import opened Proxy
  import opened PodUpdate
  import opened Injector

  /** A container of the injection configuration: a struct whose two slices are shared. */
  class ConfiguredContainer {
    const declared: Container
    const env: array<EnvVar>
    const volumeMounts: array<VolumeMount>

    constructor (c: Container)
      ensures Value() == c && fresh(env) && fresh(volumeMounts)
    {
      declared := c;
      env := new EnvVar[|c.env|](i requires 0 <= i < |c.env| => c.env[i]);
      volumeMounts := new VolumeMount[|c.volumeMounts|](i requires 0 <= i < |c.volumeMounts| => c.volumeMounts[i]);
      new;
      assert env[..] == c.env && volumeMounts[..] == c.volumeMounts;
    }

    function Value(): Container
      reads env, volumeMounts
    {
      declared.(env := env[..], volumeMounts := volumeMounts[..])
    }
  }

  function Values(cs: seq<ConfiguredContainer>): (r: seq<Container>)
    reads set c | c in cs :: c.env
    reads set c | c in cs :: c.volumeMounts
    ensures |r| == |cs| && forall i :: 0 <= i < |cs| ==> r[i] == cs[i].Value()
  {
    if cs == [] then [] else Values(cs[..|cs| - 1]) + [cs[|cs| - 1].Value()]
  }

  /** Puts the slices of loaded containers on the heap. */
  method Share(cs: seq<Container>) returns (shared: seq<ConfiguredContainer>)
    ensures Values(shared) == cs
  {
    shared := [];
    for i := 0 to |cs|
      invariant Values(shared) == cs[..i]
    {
      var c := new ConfiguredContainer(cs[i]);
      assert (shared + [c])[..|shared|] == shared;
      shared := shared + [c];
    }
  }

  /** The lifecycle object a decoded container points to. */
  class LifecycleObject {
    var value: Lifecycle

    constructor (l: Lifecycle)
      ensures value == l
    {
      value := l;
    }
  }

  /** The decoded containers' lifecycle pointers: one object for each container that has a lifecycle. */
  ghost predicate Aligned(cs: seq<Container>, objects: seq<LifecycleObject?>) {
    && |objects| == |cs|
    && (forall i :: 0 <= i < |cs| ==> (objects[i] == null <==> cs[i].lifecycle.None?))
    && (forall i, j :: 0 <= i < j < |cs| && objects[i] != null ==> objects[i] != objects[j])
  }

  /** They hold what was decoded. */
  ghost predicate Linked(cs: seq<Container>, objects: seq<LifecycleObject?>)
    reads objects
  {
    && Aligned(cs, objects)
    && forall i :: 0 <= i < |cs| && objects[i] != null ==> objects[i].value == cs[i].lifecycle.value
  }

  /** json.Unmarshal allocates the lifecycle objects. */
  method AllocateLifecycles(cs: seq<Container>) returns (objects: seq<LifecycleObject?>)
    ensures Linked(cs, objects)
    ensures forall o :: o in objects && o != null ==> fresh(o)
  {
    objects := [];
    for i := 0 to |cs|
      invariant Linked(cs[..i], objects)
      invariant forall o :: o in objects && o != null ==> fresh(o)
    {
      if cs[i].lifecycle.Some? {
        var o := new LifecycleObject(cs[i].lifecycle.value);
        objects := objects + [o];
      } else {
        objects := objects + [null];
      }
    }
    assert cs[..|cs|] == cs;
  }

  /** The annotation keys of the webhook itself and of each registered mode, without prefix. */
  const WEBHOOK_KEYS := [
    INJECT_KEY, IMAGE_KEY, AUTH_KEY, MODE_KEY, ROLE_KEY, SA_TOKEN_KEY, WORKLOAD_KEY, STATUS_KEY]
  const MODE_KEYS: map<string, seq<string>> := map[
    SECRETS := [SECRETS_PATH_KEY, SECRETS_TEMPLATE_KEY, SECRETS_DESTINATION_KEY, SECRETS_HOOK_KEY, SECRETS_TYPE_KEY,
                SECRETS_METHOD_KEY, NOTIFY_KEY],
    PROXY := [PROXY_PORT_KEY],
    JOB := []]

  predicate IsAnnotationKey(modes: set<string>, key: string)
    requires modes <= MODE_KEYS.Keys
  {
    key in WEBHOOK_KEYS || exists m :: m in modes && key in MODE_KEYS[m]
  }

  /** The webhook's keys, then those of the modes, in any order of the modes. */
  method AnnotationKeys() returns (keys: seq<string>)
    ensures forall k :: k in keys <==> IsAnnotationKey(MODE_KEYS.Keys, k)
  {
    keys := WEBHOOK_KEYS;
    var todo := MODE_KEYS.Keys;
    while todo != {}
      invariant todo <= MODE_KEYS.Keys
      invariant forall k :: k in keys <==> IsAnnotationKey(MODE_KEYS.Keys - todo, k)
      decreases |todo|
    {
      var mode :| mode in todo;
      assert MODE_KEYS.Keys - (todo - {mode}) == MODE_KEYS.Keys - todo + {mode};
      todo := todo - {mode};
      keys := keys + MODE_KEYS[mode];
    }
    assert MODE_KEYS.Keys - todo == MODE_KEYS.Keys;
  }

  /** The table of qualified keys. */
  method QualifyKeys(cfg: VSIConfig, keys: seq<string>) returns (table: map<string, string>)
    ensures forall k :: k in table <==> k in keys
    ensures forall k :: k in table ==> table[k] == FullKey(cfg, k)
  {
    table := map[];
    for i := 0 to |keys|
      invariant forall k :: k in table <==> k in keys[..i]
      invariant forall k :: k in table ==> table[k] == FullKey(cfg, k)
    {
      if cfg.annotationKeyPrefix != "" {
        table := table[keys[i] := cfg.annotationKeyPrefix + "/" + keys[i]];
      } else {
        table := table[keys[i] := keys[i]];
      }
    }
    assert keys[..|keys|] == keys;
  }

  class VaultInjector {
    /** FullKey of every annotation key, computed once. */
    const qualifiedKeys: map<string, string>
    var settings: VSIConfig
    var initContainers: seq<ConfiguredContainer>
    var containers: seq<ConfiguredContainer>
    var hookCommand: array<string>

    constructor (
      cfg: VSIConfig, inits: seq<ConfiguredContainer>, sidecars: seq<ConfiguredContainer>, hook: array<string>,
      table: map<string, string>)
      requires Values(inits) == cfg.injection.initContainers && Values(sidecars) == cfg.injection.containers
      requires HookShared(cfg, hook)
      ensures Config() == cfg && qualifiedKeys == table
    {
      settings, initContainers, containers, hookCommand, qualifiedKeys := cfg, inits, sidecars, hook, table;
    }

    /** The configuration as a value. */
    function Config(): VSIConfig
      reads this, hookCommand
      reads set c | c in initContainers :: c.env
      reads set c | c in initContainers :: c.volumeMounts
      reads set c | c in containers :: c.env
      reads set c | c in containers :: c.volumeMounts
    {
      settings.(
        injection := settings.injection.(initContainers := Values(initContainers), containers := Values(containers)),
        postStart := if settings.postStart.Some? && settings.postStart.value.exec.Some?
                     then Some(Handler(Some(hookCommand[..]))) else settings.postStart)
    }

    method AddContainer(cs: seq<Container>, basePath: string, ctx: InjectionContext) returns (r: Result<seq<PatchOp>>)
      requires ValidContext(ctx) && basePath in {PATH_INIT_CONTAINERS, PATH_CONTAINERS}
      requires basePath == PATH_CONTAINERS ==> cs != []
      ensures Config() == old(Config())
      ensures var configured := if basePath == PATH_INIT_CONTAINERS then Config().injection.initContainers
                                else Config().injection.containers;
        r == if JobCountError(configured, basePath, cs, ctx) then Failure(JobContainerCount)
             else Success(ContainerOps(configured, basePath, cs, ctx))
    {
      var first := false;
      var injectionCfgContainers := containers;
      if basePath == PATH_INIT_CONTAINERS {
        first := |cs| == 0;
        injectionCfgContainers := initContainers;
      }
      r := InjectContainers(injectionCfgContainers, basePath, first, cs, ctx, Values(injectionCfgContainers));
    }

    method AddStorage(pod: Pod) returns (patch: seq<PatchOp>)
      ensures Config() == old(Config())
      ensures patch == StorageOps(Config(), pod)
    {
      var initMounts := AddVolumeMount(pod.initContainers, PATH_INIT_CONTAINERS);
      var mounts := AddVolumeMount(pod.containers, PATH_CONTAINERS);
      var volumes := AddVolume(settings.injection.volumes, pod.volumes);
      patch := initMounts + mounts + volumes;
    }

    method PatchPod(pod: Pod, objects: seq<LifecycleObject?>, ctx: InjectionContext) returns (r: Result<seq<PatchOp>>)
      requires ValidContext(ctx) && Linked(pod.containers, objects)
      modifies objects
      ensures Config() == old(Config())
      ensures r == OwnContainersPatch(Config(), pod, ctx)
    {
      r := PatchByModes(Config(), hookCommand, pod, objects, ctx);
    }

    method UpdatePodSpec(pod: Pod, objects: seq<LifecycleObject?>) returns (r: Result<seq<PatchOp>>)
      requires Linked(pod.containers, objects)
      modifies objects
      ensures Config() == old(Config())
      ensures r == PodPatch(Config(), pod)
    {
      if |pod.containers| == 0 {
        return Failure(NoContainer);
      }
      var context := ComputeContext(Config(), pod);
      if context.Failure? {
        return Failure(context.error);
      }
      r := PatchWith(pod, objects, context.value, Config());
    }

    method PatchWith(pod: Pod, objects: seq<LifecycleObject?>, ctx: InjectionContext, ghost cfg: VSIConfig)
      returns (r: Result<seq<PatchOp>>)
      requires Linked(pod.containers, objects) && Config() == cfg
      requires pod.containers != [] && ContextFor(cfg, pod) == Success(ctx)
      modifies objects
      ensures Config() == cfg
      ensures r == PodPatch(cfg, pod)
    {
      ContextValid(cfg, pod);
      var own := PatchPod(pod, objects, ctx);
      if own.Failure? {
        PodPatchFails(cfg, pod, ctx);
        return Failure(own.error);
      }
      r := CompletePatch(pod, ctx, own.value, cfg);
    }

    /** Storage, init containers and sidecars after the patch of the pod's own containers. */
    method CompletePatch(pod: Pod, ctx: InjectionContext, own: seq<PatchOp>, ghost cfg: VSIConfig)
      returns (r: Result<seq<PatchOp>>)
      requires pod.containers != [] && Config() == cfg && ContextFor(cfg, pod) == Success(ctx) && ValidContext(ctx)
      requires OwnContainersPatch(cfg, pod, ctx) == Success(own)
      ensures Config() == cfg
      ensures r == PodPatch(cfg, pod)
    {
      PodPatchIs(cfg, pod, ctx, own);
      var patch := own;
      var storage := AddStorage(pod);
      patch := patch + storage;
      // no mode refuses an init container, so this call cannot fail
      InitsNeverRefused(cfg, pod, ctx);
      var inits := AddContainer(pod.initContainers, PATH_INIT_CONTAINERS, ctx);
      patch := patch + inits.value;
      var sidecars := AddContainer(pod.containers, PATH_CONTAINERS, ctx);
      if sidecars.Failure? {
        return Failure(sidecars.error);
      }
      patch := patch + sidecars.value;
      r := Success(patch);
    }

    method CreatePatch(pod: Pod, objects: seq<LifecycleObject?>, annotations: map<string, string>)
      returns (r: Result<seq<PatchOp>>)
      requires Linked(pod.containers, objects)
      requires annotations == map[FullKey(Config(), STATUS_KEY) := STATUS_INJECTED]
      modifies objects
      ensures Config() == old(Config())
      ensures r == FullPatch(Config(), pod)
    {
      ghost var cfg := Config();
      var patchPodSpec := UpdatePodSpec(pod, objects);
      FullPatchIs(cfg, pod);
      if patchPodSpec.Failure? {
        return Failure(patchPodSpec.error);
      }
      var patch := patchPodSpec.value;
      var status := UpdateAnnotation(pod.annotations, annotations);
      assert status == [AnnotationOp(pod.annotations, FullKey(cfg, STATUS_KEY), STATUS_INJECTED)];
      r := Success(patch + status);
    }

    /** One admission request. Nothing allocated before it is modified. */
    method Mutate(request: Json) returns (response: Response)
      ensures response == Respond(Config(), request)
    {
      var decoded := ReadPod(request);
      if decoded.None? {
        return Response(false, None, Some(MalformedPod));
      }
      var pod := decoded.value;
      var objects := AllocateLifecycles(pod.containers);
      assert forall i :: 0 <= i < |objects| && objects[i] != null ==> objects[i] in objects;
      var required := MutationPolicy(Config(), pod);
      if !required {
        return Response(true, None, None);
      }
      var annotations := map[FullKey(Config(), STATUS_KEY) := STATUS_INJECTED];
      var patch := CreatePatch(pod, objects, annotations);
      if patch.Failure? {
        return Response(false, None, Some(patch.error));
      }
      return Response(true, Some(patch.value), None);
    }

    /** History independence: over any run of requests the configuration is never modified, so each
        response is the one a fresh injector with that configuration gives. */
    method MutateAll(requests: seq<Json>) returns (responses: seq<Response>)
      ensures Config() == old(Config())
      ensures |responses| == |requests|
      ensures forall i :: 0 <= i < |requests| ==> responses[i] == Respond(old(Config()), requests[i])
    {
      responses := [];
      ghost var cfg := Config();
      for i := 0 to |requests|
        invariant Config() == cfg
        invariant |responses| == i
        invariant forall k :: 0 <= k < i ==> responses[k] == Respond(cfg, requests[k])
      {
        var response := Mutate(requests[i]);
        responses := responses + [response];
      }
    }
  }

  lemma FullPatchIs(cfg: VSIConfig, pod: Pod)
    ensures FullPatch(cfg, pod) ==
            match PodPatch(cfg, pod)
            case Failure(e) => Failure(e)
            case Success(patch) =>
              Success(patch + [AnnotationOp(pod.annotations, FullKey(cfg, STATUS_KEY), STATUS_INJECTED)])
  {
  }

  lemma PodPatchFails(cfg: VSIConfig, pod: Pod, ctx: InjectionContext)
    requires pod.containers != [] && ContextFor(cfg, pod) == Success(ctx)
    requires OwnContainersPatch(cfg, pod, ctx).Failure?
    ensures PodPatch(cfg, pod) == Failure(OwnContainersPatch(cfg, pod, ctx).error)
  {
  }

  lemma PodPatchIs(cfg: VSIConfig, pod: Pod, ctx: InjectionContext, own: seq<PatchOp>)
    requires pod.containers != [] && ContextFor(cfg, pod) == Success(ctx)
    requires OwnContainersPatch(cfg, pod, ctx) == Success(own)
    ensures PodPatch(cfg, pod) ==
      if JobCountError(cfg.injection.containers, PATH_CONTAINERS, pod.containers, ctx) then Failure(JobContainerCount)
      else Success(own + StorageOps(cfg, pod)
             + ContainerOps(cfg.injection.initContainers, PATH_INIT_CONTAINERS, pod.initContainers, ctx)
             + ContainerOps(cfg.injection.containers, PATH_CONTAINERS, pod.containers, ctx))
  {
  }

  lemma InitsNeverRefused(cfg: VSIConfig, pod: Pod, ctx: InjectionContext)
    ensures !JobCountError(cfg.injection.initContainers, PATH_INIT_CONTAINERS, pod.initContainers, ctx)
  {
    assert PATH_INIT_CONTAINERS[6] != PATH_CONTAINERS[6];
  }

  /** A fresh injector for a loaded configuration, with its table of qualified annotation keys. */
  method New(cfg: VSIConfig) returns (injector: VaultInjector)
    ensures fresh(injector) && injector.Config() == cfg
    ensures forall k :: k in injector.qualifiedKeys <==> IsAnnotationKey(MODE_KEYS.Keys, k)
    ensures forall k :: k in injector.qualifiedKeys ==> injector.qualifiedKeys[k] == FullKey(cfg, k)
  {
    var keys := AnnotationKeys();
    var table := QualifyKeys(cfg, keys);
    var inits := Share(cfg.injection.initContainers);
    var sidecars := Share(cfg.injection.containers);
    var hook := ShareHook(if cfg.postStart.Some? then cfg.postStart.value.exec.GetOr([]) else []);
    injector := new VaultInjector(cfg, inits, sidecars, hook, table);
  }

  method ShareHook(words: seq<string>) returns (hook: array<string>)
    ensures hook[..] == words
  {
    hook := new string[|words|](i requires 0 <= i < |words| => words[i]);
  }

  /* ---------- computeContext ---------- */

  method ComputeModesStatus(cfg: VSIConfig, a: map<string, string>) returns (status: map<string, bool>)
    ensures status == ModesStatusFor(cfg, a)
  {
    var modes := new StatusTable();
    GetModesStatus(REGISTERED, Split(Annotation(cfg, a, MODE_KEY), ","), modes);
    RegisteredDefault();
    assert forall d :: IsDefaultKey(REGISTERED, d) ==> d == SECRETS;
    assert modes.entries == map[] + Status(REGISTERED, Split(Annotation(cfg, a, MODE_KEY), ","), SECRETS);
    status := modes.entries;
    if Annotation(cfg, a, WORKLOAD_KEY) == JOB {
      status := status[JOB := true];
    }
  }

  /** The mode compute functions, asked in any order. */
  method ComputeModesConfig(cfg: VSIConfig, pod: Pod, status: map<string, bool>)
    returns (r: Result<map<string, ModeConfig>>)
    requires status.Keys == {SECRETS, PROXY, JOB}
    ensures r == ModesConfigFor(cfg, pod, status)
  {
    var configs: map<string, ModeConfig> := map[];
    ghost var secrets := SecretsConfig(cfg, pod.labels, pod.annotations);
    ghost var proxy := ProxyModeCompute(cfg, pod.annotations);
    ghost var done: set<string> := {};
    var todo := status.Keys;
    while todo != {}
      invariant todo <= status.Keys && done == status.Keys - todo
      invariant ConfigsOf(secrets, proxy, status, done) == Success(configs)
      decreases |todo|
    {
      var mode :| mode in todo;
      todo := todo - {mode};
      ConfigsStep(secrets, proxy, status, done, mode);
      if status[mode] && mode == SECRETS {
        var config := SecretsModeCompute(cfg, pod.labels, pod.annotations);
        if config.Failure? {
          return Failure(config.error);
        }
        configs := configs[mode := config.value];
      } else if status[mode] && mode == PROXY {
        configs := configs[mode := ProxyModeCompute(cfg, pod.annotations)];
      }
      done := done + {mode};
    }
    r := Success(configs);
  }

  /** One more mode: secrets may fail, proxy adds its configuration, job has none. */
  lemma ConfigsStep(
    secrets: Result<ModeConfig>, proxy: ModeConfig, status: map<string, bool>, modes: set<string>, m: string)
    requires modes <= status.Keys && m in status.Keys && m !in modes
    requires ConfigsOf(secrets, proxy, status, modes).Success?
    ensures var before, after := ConfigsOf(secrets, proxy, status, modes),
            ConfigsOf(secrets, proxy, status, modes + {m});
      after ==
      if status[m] && m == SECRETS then
        match secrets
        case Failure(e) => Failure(e)
        case Success(c) => Success(before.value[SECRETS := c])
      else if status[m] && m == PROXY then Success(before.value[PROXY := proxy])
      else before
    ensures SECRETS in modes + {m} && status[SECRETS] && secrets.Failure? ==>
      ConfigsOf(secrets, proxy, status, status.Keys) == ConfigsOf(secrets, proxy, status, modes + {m})
  {
    assert |SECRETS| != |PROXY|;
    if m == PROXY && status[PROXY] && SECRETS in modes && status[SECRETS] {
      assert map[PROXY := proxy][SECRETS := secrets.value] == map[SECRETS := secrets.value][PROXY := proxy];
    }
  }

  method ComputeContext(cfg: VSIConfig, pod: Pod) returns (r: Result<InjectionContext>)
    ensures r == ContextFor(cfg, pod)
  {
    var a := pod.annotations;
    var status := ComputeModesStatus(cfg, a);
    ModesStatusKeys(cfg, a);
    var authMethod := ToLower(Annotation(cfg, a, AUTH_KEY));
    if authMethod == "" {
      authMethod := AUTH_KUBERNETES;
    } else {
      var supported := Supported(authMethod, [AUTH_KUBERNETES, AUTH_APPROLE]);
      if !supported {
        return Failure(UnsupportedAuthMethod(authMethod));
      }
    }
    var role := Annotation(cfg, a, ROLE_KEY);
    if role == "" && authMethod == AUTH_KUBERNETES {
      role := Lookup(pod.labels, cfg.applicationLabelKey);
      if role == "" {
        return Failure(MissingApplicationLabel);
      }
    }
    r := FinishContext(cfg, pod, status, authMethod, role);
  }

  /** Service-account volumes and mode configurations. */
  method FinishContext(cfg: VSIConfig, pod: Pod, status: map<string, bool>, authMethod: string, role: string)
    returns (r: Result<InjectionContext>)
    requires status == ModesStatusFor(cfg, pod.annotations) && status.Keys == {SECRETS, PROXY, JOB}
    requires authMethod == AuthMethod(cfg, pod.annotations) && authMethod in {AUTH_KUBERNETES, AUTH_APPROLE}
    requires role == Role(cfg, pod.labels, pod.annotations) && !(role == "" && authMethod == AUTH_KUBERNETES)
    ensures r == ContextFor(cfg, pod)
  {
    var k8sVolume := GetServiceAccountTokenVolumeName(pod.containers, K8S_SA_MOUNT_PATH);
    if k8sVolume.Failure? {
      return Failure(k8sVolume.error);
    }
    var vaultVolume := k8sVolume;
    var saTokenPath := Annotation(cfg, pod.annotations, SA_TOKEN_KEY);
    if saTokenPath != "" {
      vaultVolume := GetServiceAccountTokenVolumeName(pod.containers, TrimSuffix(saTokenPath, "/token"));
      if vaultVolume.Failure? {
        return Failure(vaultVolume.error);
      }
    }
    var configs := ComputeModesConfig(cfg, pod, status);
    if configs.Failure? {
      return Failure(configs.error);
    }
    r := Success(InjectionContext(
      k8sVolume.value, Annotation(cfg, pod.annotations, IMAGE_KEY), vaultVolume.value, authMethod, role,
      status, configs.value));
  }

  /* ---------- The secrets mode's patch ---------- */

  predicate HasPatchFunction(mode: string) {
    mode == SECRETS
  }

  method PatchByMode(
    mode: string, cfg: VSIConfig, hookCommand: array<string>, pod: Pod, objects: seq<LifecycleObject?>,
    ctx: InjectionContext)
    returns (r: Result<seq<PatchOp>>)
    requires HasPatchFunction(mode) && Enabled(ctx, mode)
    requires Linked(pod.containers, objects) && HookShared(cfg, hookCommand)
    modifies objects
    ensures r == OwnContainersPatch(cfg, pod, ctx)
  {
    r := SecretsModePatch(cfg, hookCommand, pod.containers, objects, pod.annotations, ctx);
  }

  /** The patch after the modes asked so far. */
  function PatchOf(asked: set<string>, cfg: VSIConfig, pod: Pod, ctx: InjectionContext): Result<seq<PatchOp>> {
    if SECRETS in asked && Enabled(ctx, SECRETS) then OwnContainersPatch(cfg, pod, ctx) else Success([])
  }

  lemma PatchOfAll(asked: set<string>, cfg: VSIConfig, pod: Pod, ctx: InjectionContext)
    requires SECRETS in asked
    ensures PatchOf(asked, cfg, pod, ctx) == OwnContainersPatch(cfg, pod, ctx)
  {
  }

  /** One turn of the loop over the modes: the patch grows by what the mode's patch function returns. */
  method PatchTurn(
    mode: string, cfg: VSIConfig, hookCommand: array<string>, pod: Pod, objects: seq<LifecycleObject?>,
    ctx: InjectionContext, before: seq<PatchOp>, ghost asked: set<string>)
    returns (r: Result<seq<PatchOp>>)
    requires mode in ctx.modesStatus && mode !in asked && PatchOf(asked, cfg, pod, ctx) == Success(before)
    requires SECRETS !in asked ==> Linked(pod.containers, objects) && HookShared(cfg, hookCommand)
    modifies objects
    ensures r == PatchOf(asked + {mode}, cfg, pod, ctx)
    ensures SECRETS !in asked + {mode} ==> Linked(pod.containers, objects) && HookShared(cfg, hookCommand)
  {
    r := Success(before);
    if ctx.modesStatus[mode] && HasPatchFunction(mode) {
      var patchPod := PatchByMode(mode, cfg, hookCommand, pod, objects, ctx);
      if patchPod.Failure? {
        return patchPod;
      }
      assert before == [];
      assert [] + patchPod.value == patchPod.value;
      r := Success(before + patchPod.value);
    }
  }

  /** The mode patch functions, asked in any order; only the secrets mode has one. */
  method PatchByModes(
    cfg: VSIConfig, hookCommand: array<string>, pod: Pod, objects: seq<LifecycleObject?>, ctx: InjectionContext)
    returns (r: Result<seq<PatchOp>>)
    requires ValidContext(ctx) && Linked(pod.containers, objects) && HookShared(cfg, hookCommand)
    modifies objects
    ensures r == OwnContainersPatch(cfg, pod, ctx)
  {
    r := Success([]);
    ghost var asked: set<string> := {};
    var todo := ctx.modesStatus.Keys;
    while todo != {}
      invariant todo <= ctx.modesStatus.Keys && asked == ctx.modesStatus.Keys - todo
      invariant r.Success? && PatchOf(asked, cfg, pod, ctx) == r
      invariant SECRETS !in asked ==> Linked(pod.containers, objects) && HookShared(cfg, hookCommand)
      decreases |todo|
    {
      var mode :| mode in todo;
      r := PatchTurn(mode, cfg, hookCommand, pod, objects, ctx, r.value, asked);
      todo := todo - {mode};
      asked := asked + {mode};
      if r.Failure? {
        PatchFails(asked, cfg, pod, ctx);
        return;
      }
    }
    PatchOfAll(asked, cfg, pod, ctx);
  }

  lemma PatchFails(asked: set<string>, cfg: VSIConfig, pod: Pod, ctx: InjectionContext)
    requires PatchOf(asked, cfg, pod, ctx).Failure?
    ensures PatchOf(asked, cfg, pod, ctx) == OwnContainersPatch(cfg, pod, ctx)
  {
  }

  /** The configured hook command is the shared array's contents. */
  ghost predicate HookShared(cfg: VSIConfig, hookCommand: array<string>)
    reads hookCommand
  {
    cfg.postStart.Some? && cfg.postStart.value.exec.Some? ==> cfg.postStart.value.exec.value == hookCommand[..]
  }

  method SecretsModePatch(
    cfg: VSIConfig, hookCommand: array<string>, cs: seq<Container>, objects: seq<LifecycleObject?>,
    a: map<string, string>, ctx: InjectionContext)
    returns (r: Result<seq<PatchOp>>)
    requires Linked(cs, objects) && HookShared(cfg, hookCommand)
    modifies objects
    ensures r == SecretsPatch(cfg, cs, a, ctx)
  {
    if !IsSecretsStatic(ctx) {
      r := AddLifecycleHooks(cfg, hookCommand, cs, objects, a, ctx);
    } else if IsSecretsInjectionEnv(ctx) {
      r := PatchCommand(cs);
    } else {
      r := Success([]);
    }
  }

  /** Hooks are written into the decoded pod's own lifecycle objects; the shared command is copied for
      each container before its placeholder is filled. */
  method AddLifecycleHooks(
    cfg: VSIConfig, hookCommand: array<string>, cs: seq<Container>, objects: seq<LifecycleObject?>,
    a: map<string, string>, ctx: InjectionContext)
    returns (r: Result<seq<PatchOp>>)
    requires Linked(cs, objects) && HookShared(cfg, hookCommand)
    modifies objects
    ensures r == HooksPatch(cfg, cs, a, ctx)
  {
    if !Affirmative(Annotation(cfg, a, SECRETS_HOOK_KEY)) {
      return Success([]);
    }
    if Enabled(ctx, JOB) {
      return Failure(HookWithJob);
    }
    if cfg.postStart.None? {
      return Success([]);
    }
    if cfg.postStart.value.exec.None? {
      return Failure(UnsupportedHook);
    }
    var patch := HookAll(hookCommand, cs, objects, cfg.postStart.value.exec.value);
    r := Success(patch);
  }

  /** Every decoded lifecycle object ends up with the hook of its container. */
  method HookAll(
    command: array<string>, cs: seq<Container>, objects: seq<LifecycleObject?>, ghost words: seq<string>)
    returns (patch: seq<PatchOp>)
    requires Linked(cs, objects) && words == command[..]
    modifies objects
    ensures patch == HookOps(cs, words)
    ensures HookedUpTo(cs, objects, words, |cs|)
  {
    patch := [];
    NoneHooked(cs, objects, words);
    var i := 0;
    while i < |cs|
      invariant i <= |cs|
      invariant command[..] == words
      invariant patch == HookOps(cs[..i], words)
      invariant HookedUpTo(cs, objects, words, i)
    {
      var container := HookNext(command, cs, objects, i, words);
      patch := AppendHook(cs, i, patch, container, words);
      i := i + 1;
    }
    assert cs[..|cs|] == cs;
  }

  /** The lifecycle objects of the first n containers hold the hook, the others what was decoded. */
  ghost predicate HookedUpTo(cs: seq<Container>, objects: seq<LifecycleObject?>, words: seq<string>, n: nat)
    reads objects
  {
    && Aligned(cs, objects)
    && forall j :: 0 <= j < |cs| && objects[j] != null ==>
         objects[j].value == (if j < n then Hooked(cs[j], words) else cs[j]).lifecycle.value
  }

  lemma NoneHooked(cs: seq<Container>, objects: seq<LifecycleObject?>, words: seq<string>)
    requires Linked(cs, objects)
    ensures HookedUpTo(cs, objects, words, 0)
  {
  }

  method HookNext(
    command: array<string>, cs: seq<Container>, objects: seq<LifecycleObject?>, i: nat, ghost words: seq<string>)
    returns (container: Container)
    requires i < |cs| && words == command[..]
    requires HookedUpTo(cs, objects, words, i)
    modifies objects
    ensures container == Hooked(cs[i], words)
    ensures HookedUpTo(cs, objects, words, i + 1)
    ensures command[..] == words
  {
    container := HookOne(command, cs[i], objects[i]);
  }

  /** The operation that replaces the whole container. */
  method AppendHook(
    cs: seq<Container>, i: nat, before: seq<PatchOp>, container: Container, ghost words: seq<string>)
    returns (patch: seq<PatchOp>)
    requires i < |cs| && container == Hooked(cs[i], words) && before == HookOps(cs[..i], words)
    ensures patch == HookOps(cs[..i + 1], words)
  {
    EditAllPrefix(cs, HookEdit(words), i);
    HookOp(words, cs[i], i);
    patch := before + [PatchOp(OP_REPLACE, PATH_CONTAINERS + "/" + Itoa(i), WriteContainer(container))];
  }

  lemma HookOp(words: seq<string>, c: Container, i: nat)
    ensures EditOp(PATH_CONTAINERS, i, HookEdit(words)(c)) ==
            [PatchOp(OP_REPLACE, PATH_CONTAINERS + "/" + Itoa(i), WriteContainer(Hooked(c, words)))]
  {
    assert PATH_CONTAINERS + "/" + Itoa(i) + "" == PATH_CONTAINERS + "/" + Itoa(i);
  }

  /** One container: its lifecycle object, if it has one, is updated in place. */
  method HookOne(command: array<string>, c: Container, lifecycle: LifecycleObject?) returns (hooked: Container)
    requires lifecycle == null <==> c.lifecycle.None?
    requires lifecycle != null ==> lifecycle.value == c.lifecycle.value
    modifies lifecycle
    ensures hooked == Hooked(c, old(command[..]))
    ensures lifecycle != null ==> lifecycle.value == hooked.lifecycle.value
  {
    var mountPath := GetMountPathOfSecretsVolume(c);
    if mountPath == "" {
      mountPath := SECRETS_DEFAULT_MOUNT_PATH;
    }
    var hookCommand := RenderHook(command, mountPath);
    var hook := Some(WriteHandler(hookCommand[..]));
    if lifecycle != null {
      lifecycle.value := lifecycle.value.(postStart := hook);
      hooked := c.(lifecycle := Some(lifecycle.value));
    } else {
      hooked := c.(lifecycle := Some(Lifecycle(hook, map[])));
    }
  }

  /* ---------- addContainer ---------- */

  /** The loop over the configured containers. */
  method InjectContainers(
    configured: seq<ConfiguredContainer>, basePath: string, create: bool, cs: seq<Container>, ctx: InjectionContext,
    ghost values: seq<Container>)
    returns (r: Result<seq<PatchOp>>)
    requires ValidContext(ctx) && (basePath == PATH_CONTAINERS ==> cs != [])
    requires create == (basePath == PATH_INIT_CONTAINERS && cs == []) && values == Values(configured)
    ensures r == if JobCountError(values, basePath, cs, ctx) then Failure(JobContainerCount)
                 else Success(ContainerOps(values, basePath, cs, ctx))
  {
    var patch: seq<PatchOp> := [];
    var injectionCntIdx := 0;
    for i := 0 to |configured|
      invariant Values(configured) == values
      invariant patch == ContainerOps(values[..i], basePath, cs, ctx) && injectionCntIdx == |patch|
      invariant i > 0 ==> !(basePath == PATH_CONTAINERS && Enabled(ctx, JOB) && |cs| != 1)
    {
      assert values[i] == configured[i].Value();
      var next := InjectNext(configured[i], basePath, create, injectionCntIdx, patch, cs, ctx, values, i);
      if next.Failure? {
        return Failure(next.error);
      }
      patch := next.value;
      injectionCntIdx := |patch|;
    }
    assert values[..|values|] == values;
    r := Success(patch);
  }

  /** One turn of the loop: the patch grows by the container's operation if some mode wants it. */
  method InjectNext(
    injectionCnt: ConfiguredContainer, basePath: string, create: bool, injectionCntIdx: nat, patch: seq<PatchOp>,
    cs: seq<Container>, ctx: InjectionContext, ghost values: seq<Container>, ghost i: nat)
    returns (r: Result<seq<PatchOp>>)
    requires ValidContext(ctx) && (basePath == PATH_CONTAINERS ==> cs != [])
    requires create == (basePath == PATH_INIT_CONTAINERS && cs == [])
    requires i < |values| && values[i] == injectionCnt.Value()
    requires patch == ContainerOps(values[..i], basePath, cs, ctx) && injectionCntIdx == |patch|
    ensures r == if basePath == PATH_CONTAINERS && Enabled(ctx, JOB) && |cs| != 1 then Failure(JobContainerCount)
                 else Success(ContainerOps(values[..i + 1], basePath, cs, ctx))
  {
    ContainerOpsNext(values, i, basePath, cs, ctx);
    var inject := ResolveOne(injectionCnt, cs, basePath, ctx);
    if inject.Failure? {
      return Failure(inject.error);
    }
    if inject.value.None? {
      return Success(patch);
    }
    var op := FrontOp(basePath, create, injectionCntIdx, WriteContainer(inject.value.value));
    return Success(patch + [op]);
  }

  /** The operation that puts a container in front of the pod's own, creating the array if it is the first. */
  method FrontOp(basePath: string, create: bool, index: nat, container: Json) returns (op: PatchOp)
    ensures op == InsertOp(basePath, create, index, container)
  {
    var value := container;
    var path := basePath;
    if create && index == 0 {
      value := Arr([value]);
    } else {
      path := path + "/" + Itoa(index);
    }
    op := PatchOp(OP_ADD, path, value);
  }

  lemma ContainerOpsNext(
    configured: seq<Container>, i: nat, basePath: string, cs: seq<Container>,
    ctx: InjectionContext)
    requires i < |configured|
    ensures var ops, c := ContainerOps(configured[..i], basePath, cs, ctx), configured[i];
      ContainerOps(configured[..i + 1], basePath, cs, ctx) ==
      if !Wanted(basePath, c.name, ctx) then ops
      else ops + [InsertOp(basePath, basePath == PATH_INIT_CONTAINERS && cs == [], |ops|,
                           WriteContainer(Resolved(c, basePath, cs, ctx)))]
  {
    InjectedNext(configured, i, basePath, cs, ctx);
    if Wanted(basePath, configured[i].name, ctx) {
      InsertNext(basePath, basePath == PATH_INIT_CONTAINERS && cs == [],
                 Injected(configured[..i], basePath, cs, ctx), Resolved(configured[i], basePath, cs, ctx));
    }
  }

  lemma InjectedNext(configured: seq<Container>, i: nat, basePath: string, cs: seq<Container>, ctx: InjectionContext)
    requires i < |configured|
    ensures Injected(configured[..i + 1], basePath, cs, ctx) ==
      if !Wanted(basePath, configured[i].name, ctx) then Injected(configured[..i], basePath, cs, ctx)
      else Injected(configured[..i], basePath, cs, ctx) + [Resolved(configured[i], basePath, cs, ctx)]
  {
    var taken := configured[..i + 1];
    assert taken[..i] == configured[..i] && taken[i] == configured[i];
  }

  lemma InsertNext(basePath: string, first: bool, before: seq<Container>, c: Container)
    ensures var ops := InsertOps(basePath, first, WriteAll(before, WriteContainer));
      InsertOps(basePath, first, WriteAll(before + [c], WriteContainer)) ==
      ops + [InsertOp(basePath, first, |ops|, WriteContainer(c))]
  {
    var values := WriteAll(before, WriteContainer);
    InsertOpsLength(basePath, first, values);
    assert WriteAll(before + [c], WriteContainer) == values + [WriteContainer(c)];
    assert (values + [WriteContainer(c)])[..|values|] == values;
  }

  lemma {:induction false} InsertOpsLength(base: string, first: bool, values: seq<Json>)
    ensures |InsertOps(base, first, values)| == |values|
  {
    if values != [] {
      InsertOpsLength(base, first, values[..|values| - 1]);
    }
  }

  /** One configured container: its slices are copied, the enabled modes asked, the copies resolved. */
  method ResolveOne(injectionCnt: ConfiguredContainer, cs: seq<Container>, basePath: string, ctx: InjectionContext)
    returns (r: Result<Option<Container>>)
    requires ValidContext(ctx) && (basePath == PATH_CONTAINERS ==> cs != [])
    ensures r == var c := injectionCnt.Value();
                 if basePath == PATH_CONTAINERS && Enabled(ctx, JOB) && |cs| != 1 then Failure(JobContainerCount)
                 else if Wanted(basePath, c.name, ctx) then Success(Some(Resolved(c, basePath, cs, ctx)))
                 else Success(None)
  {
    ghost var c := injectionCnt.Value();
    var name := injectionCnt.declared.name;
    var env := new EnvVar[injectionCnt.env.Length](
      i requires 0 <= i < injectionCnt.env.Length reads injectionCnt.env => injectionCnt.env[i]);
    assert env[..] == c.env;
    var inject := InjectByModes(basePath, cs, name, env, ctx);
    if inject.Failure? {
      return Failure(inject.error);
    }
    if !inject.value {
      return Success(None);
    }
    ResolveVaultEnv(env, ctx);
    var mounts := new VolumeMount[injectionCnt.volumeMounts.Length](
      i requires 0 <= i < injectionCnt.volumeMounts.Length reads injectionCnt.volumeMounts
        => injectionCnt.volumeMounts[i]);
    assert mounts[..] == c.volumeMounts;
    ResolveVolumeMounts(mounts, ctx);
    var container := injectionCnt.declared.(env := env[..], volumeMounts := mounts[..]);
    if ctx.vaultImage != "" {
      if name == VAULT_AGENT_INIT || name == VAULT_AGENT {
        container := container.(image := ctx.vaultImage);
      }
    }
    assert container.env == Resolved(c, basePath, cs, ctx).env;
    assert container.volumeMounts == Resolved(c, basePath, cs, ctx).volumeMounts;
    r := Success(Some(container));
  }
}
