/** What an accepted pod is guaranteed after mutation: which containers were injected, how jobs and
    wrapped commands fit together, and that every mount still names a volume. */
module Guarantees {
  import opened Text
  import opened JsonPatch
  import opened Manifest
  import opened Config
  import opened Meaning
  import opened Modes
  import opened Rendering
  import opened Proxy
  import opened Secrets
  import opened Job
  import opened GoPath
  import opened PodUpdate
  import opened Refinement
  import opened Mutation
  import opened EnvProcess

  /* ---------- Injection table ---------- */

  predicate DynamicSecrets(ctx: InjectionContext) {
    Enabled(ctx, SECRETS) && !IsSecretsStatic(ctx)
  }

  /** Which container names are injected, and where. */
  lemma InjectionTable(ctx: InjectionContext, name: string)
    requires ValidContext(ctx)
    ensures Wanted(PATH_INIT_CONTAINERS, name, ctx) <==>
      IsSecretsStatic(ctx) && (name == VAULT_AGENT_INIT || (name == ENV_INIT && IsSecretsInjectionEnv(ctx)))
    ensures Wanted(PATH_CONTAINERS, name, ctx) <==>
      || (name == VAULT_AGENT && (DynamicSecrets(ctx) || Enabled(ctx, PROXY) || JobActive(ctx)))
      || (name == JOB_BABYSITTER && JobActive(ctx))
    ensures JobActive(ctx) <==>
      Enabled(ctx, JOB) && !(Enabled(ctx, SECRETS) && !Enabled(ctx, PROXY) && IsSecretsStatic(ctx))
  {
    WantedIs(PATH_INIT_CONTAINERS, name, ctx);
    WantedIs(PATH_CONTAINERS, name, ctx);
    EnabledThree(ctx);
  }

  lemma WantedIs(basePath: string, name: string, ctx: InjectionContext)
    requires ValidContext(ctx)
    ensures Wanted(basePath, name, ctx) <==>
      || ModeInjects(SECRETS, basePath, name, ctx)
      || ModeInjects(PROXY, basePath, name, ctx)
      || ModeInjects(JOB, basePath, name, ctx)
  {
    assert SECRETS in ctx.modesStatus.Keys && PROXY in ctx.modesStatus.Keys && JOB in ctx.modesStatus.Keys;
  }

  lemma EnabledThree(ctx: InjectionContext)
    requires ValidContext(ctx)
    ensures EnabledSet(ctx.modesStatus) == {SECRETS, JOB} <==>
      Enabled(ctx, SECRETS) && Enabled(ctx, JOB) && !Enabled(ctx, PROXY)
  {
    assert PROXY in EnabledSet(ctx.modesStatus) <==> Enabled(ctx, PROXY);
    assert SECRETS in EnabledSet(ctx.modesStatus) <==> Enabled(ctx, SECRETS);
    assert JOB in EnabledSet(ctx.modesStatus) <==> Enabled(ctx, JOB);
  }

  predicate Increasing(idx: seq<nat>) {
    forall i, j :: 0 <= i < j < |idx| ==> idx[i] < idx[j]
  }

  /** The injected containers are the wanted ones of the configuration, each once, in its order. */
  lemma {:induction false} InjectedInOrder(
    configured: seq<Container>, basePath: string, cs: seq<Container>, ctx: InjectionContext) returns (idx: seq<nat>)
    ensures Increasing(idx) && |idx| == |Injected(configured, basePath, cs, ctx)|
    ensures forall k :: 0 <= k < |idx| ==>
      (idx[k] < |configured|
       && Injected(configured, basePath, cs, ctx)[k] == Resolved(configured[idx[k]], basePath, cs, ctx))
    ensures forall i :: 0 <= i < |configured| ==> (i in idx <==> Wanted(basePath, configured[i].name, ctx))
  {
    if configured == [] {
      idx := [];
    } else {
      var n := |configured| - 1;
      var before := InjectedInOrder(configured[..n], basePath, cs, ctx);
      if Wanted(basePath, configured[n].name, ctx) {
        idx := before + [n];
      } else {
        idx := before;
      }
    }
  }

  predicate HasNamed(cs: seq<Container>, name: string) {
    exists i :: 0 <= i < |cs| && cs[i].name == name
  }

  lemma NormalKeeps(c: Container)
    ensures Normal(c).name == c.name && Normal(c).env == c.env && Normal(c).volumeMounts == c.volumeMounts
  {
  }

  /** The configured container an injected one comes from. */
  lemma FrontedFrom(
    configured: seq<Container>, basePath: string, cs: seq<Container>, ctx: InjectionContext, k: nat)
    returns (c: Container)
    requires k < |Fronted(configured, basePath, cs, ctx)|
    ensures c in configured && Wanted(basePath, c.name, ctx)
    ensures Fronted(configured, basePath, cs, ctx)[k] == Normal(Resolved(c, basePath, cs, ctx))
    ensures Fronted(configured, basePath, cs, ctx)[k].name == c.name
    ensures Fronted(configured, basePath, cs, ctx)[k].env == Resolved(c, basePath, cs, ctx).env
  {
    var idx := InjectedInOrder(configured, basePath, cs, ctx);
    assert idx[k] in idx;
    c := configured[idx[k]];
    NormalKeeps(Resolved(c, basePath, cs, ctx));
  }

  /** A container of that name is injected exactly when a mode wants the name and the configuration
      declares it. */
  lemma FrontedNamed(
    configured: seq<Container>, basePath: string, cs: seq<Container>, ctx: InjectionContext, name: string)
    ensures HasNamed(Fronted(configured, basePath, cs, ctx), name) <==>
      Wanted(basePath, name, ctx) && HasNamed(configured, name)
  {
    var fronted := Fronted(configured, basePath, cs, ctx);
    if k :| 0 <= k < |fronted| && fronted[k].name == name {
      var c := FrontedFrom(configured, basePath, cs, ctx, k);
      var i :| 0 <= i < |configured| && configured[i] == c;
      assert configured[i].name == name;
    }
    if i :| 0 <= i < |configured| && configured[i].name == name && Wanted(basePath, name, ctx) {
      var idx := InjectedInOrder(configured, basePath, cs, ctx);
      var k :| 0 <= k < |idx| && idx[k] == i;
      NormalKeeps(Resolved(configured[i], basePath, cs, ctx));
      assert fronted[k].name == name;
    }
  }

  /* ---------- What resolution may change ---------- */

  /** The pod mounts the named volume at the path in one of its containers. */
  predicate MountedAt(cs: seq<Container>, mountPath: string, name: string) {
    exists i, j :: 0 <= i < |cs| && 0 <= j < |cs[i].volumeMounts| &&
      cs[i].volumeMounts[j].mountPath == mountPath && cs[i].volumeMounts[j].name == name
  }

  lemma {:induction false} FoundMountedAt(cs: seq<Container>, mountPath: string)
    requires MountNameAt(AllMounts(cs), mountPath) != ""
    ensures MountedAt(cs, mountPath, MountNameAt(AllMounts(cs), mountPath))
  {
    var name := MountNameAt(AllMounts(cs), mountPath);
    var first := cs[0].volumeMounts;
    if j :| 0 <= j < |first| && first[j].mountPath == mountPath && first[j].name == name {
      assert MountedAt(cs, mountPath, name);
    } else {
      NotInFirst(first, AllMounts(cs[1..]), mountPath);
      FoundMountedAt(cs[1..], mountPath);
      LaterMountedAt(cs, mountPath, name);
    }
  }

  lemma LaterMountedAt(cs: seq<Container>, mountPath: string, name: string)
    requires cs != [] && MountedAt(cs[1..], mountPath, name)
    ensures MountedAt(cs, mountPath, name)
  {
    var tail := cs[1..];
    var i, j :| 0 <= i < |tail| && 0 <= j < |tail[i].volumeMounts| &&
                tail[i].volumeMounts[j].mountPath == mountPath && tail[i].volumeMounts[j].name == name;
    assert cs[i + 1] == tail[i];
  }

  lemma {:induction false} NotInFirst(a: seq<VolumeMount>, b: seq<VolumeMount>, mountPath: string)
    requires forall j :: 0 <= j < |a| && a[j].mountPath == mountPath ==> a[j].name != MountNameAt(a + b, mountPath)
    ensures MountNameAt(a + b, mountPath) == MountNameAt(b, mountPath)
  {
    if a == [] {
      assert a + b == b;
    } else {
      assert (a + b)[0] == a[0] && (a + b)[1..] == a[1..] + b;
      NotInFirst(a[1..], b, mountPath);
    }
  }

  /** The service-account mounts of an injected container name the volumes the pod itself mounts at the
      Kubernetes path and at the configured token's path; every other mount, and every path, is kept. */
  lemma TokenVolumes(cfg: VSIConfig, pod: Pod, c: Container, basePath: string, cs: seq<Container>, j: nat)
    requires ContextFor(cfg, pod).Success? && j < |c.volumeMounts|
    ensures var m := Resolved(c, basePath, cs, ContextFor(cfg, pod).value).volumeMounts[j];
      && m.mountPath == c.volumeMounts[j].mountPath && m.rest == c.volumeMounts[j].rest
      && (m.mountPath == K8S_SA_MOUNT_PATH ==> MountedAt(pod.containers, K8S_SA_MOUNT_PATH, m.name))
      && (m.mountPath == VAULT_SA_MOUNT_PATH ==>
            MountedAt(pod.containers, VaultSAMountPath(cfg, pod.annotations), m.name))
      && (m.mountPath !in {K8S_SA_MOUNT_PATH, VAULT_SA_MOUNT_PATH} ==> m == c.volumeMounts[j])
  {
    TokenVolumesFound(cfg, pod);
    PathsDiffer();
  }

  lemma TokenVolumesFound(cfg: VSIConfig, pod: Pod)
    requires ContextFor(cfg, pod).Success?
    ensures MountedAt(pod.containers, K8S_SA_MOUNT_PATH, ContextFor(cfg, pod).value.k8sSATokenVolume)
    ensures MountedAt(pod.containers, VaultSAMountPath(cfg, pod.annotations),
              ContextFor(cfg, pod).value.vaultSATokenVolume)
  {
    FoundMountedAt(pod.containers, K8S_SA_MOUNT_PATH);
    FoundMountedAt(pod.containers, VaultSAMountPath(cfg, pod.annotations));
  }

  lemma PathsDiffer()
    ensures K8S_SA_MOUNT_PATH != VAULT_SA_MOUNT_PATH
  {
    assert |K8S_SA_MOUNT_PATH| != |VAULT_SA_MOUNT_PATH|;
  }

  /** The value a variable of an injected container gets: each variable the injector owns from the modes
      that inject the container or from the context, every other one from the configuration. */
  function ResolvedValue(e: EnvVar, basePath: string, cs: seq<Container>, name: string, ctx: InjectionContext): string {
    if e.name == TEMPLATES_ENV && ModeInjects(SECRETS, basePath, name, ctx) then TemplateOf(ctx, SECRETS)
    else if e.name == PROXY_CONFIG_ENV && ModeInjects(PROXY, basePath, name, ctx) then TemplateOf(ctx, PROXY)
    else if e.name == JOB_CONTAINER_ENV && ModeInjects(JOB, basePath, name, ctx) && cs != [] then cs[0].name
    else if e.name == JOB_WORKLOAD_ENV && ModeInjects(JOB, basePath, name, ctx) && cs != [] then "true"
    else if e.name == ROLE_ENV then ctx.role
    else if e.name == AUTH_METHOD_ENV then ctx.authMethod
    else e.value
  }

  /** Only the variables the injector owns change in an injected container, and only their values. */
  lemma ResolvedFrame(c: Container, basePath: string, cs: seq<Container>, ctx: InjectionContext, i: nat)
    requires ValidContext(ctx) && i < |c.env|
    ensures var r := Resolved(c, basePath, cs, ctx);
      && r.name == c.name && r.command == c.command && r.lifecycle == c.lifecycle && r.rest == c.rest
      && r.image ==
         (if ctx.vaultImage != "" && c.name in {VAULT_AGENT_INIT, VAULT_AGENT} then ctx.vaultImage else c.image)
      && |r.env| == |c.env|
      && r.env[i] == c.env[i].(value := ResolvedValue(c.env[i], basePath, cs, c.name, ctx))
  {
    ResolvedEnv(c.env[i], basePath, cs, c.name, ctx);
  }

  lemma ResolvedEnv(e: EnvVar, basePath: string, cs: seq<Container>, name: string, ctx: InjectionContext)
    requires ValidContext(ctx)
    ensures ResolveEnv(e, basePath, cs, name, ctx) == e.(value := ResolvedValue(e, basePath, cs, name, ctx))
  {
    OwnedNames();
  }

  lemma OwnedNames()
    ensures TEMPLATES_ENV !in {PROXY_CONFIG_ENV, JOB_CONTAINER_ENV, JOB_WORKLOAD_ENV, ROLE_ENV, AUTH_METHOD_ENV}
    ensures PROXY_CONFIG_ENV !in {JOB_CONTAINER_ENV, JOB_WORKLOAD_ENV, ROLE_ENV, AUTH_METHOD_ENV}
    ensures JOB_CONTAINER_ENV !in {JOB_WORKLOAD_ENV, ROLE_ENV, AUTH_METHOD_ENV}
    ensures JOB_WORKLOAD_ENV !in {ROLE_ENV, AUTH_METHOD_ENV} && ROLE_ENV != AUTH_METHOD_ENV
  {
    assert TEMPLATES_ENV[4] == 'S' && PROXY_CONFIG_ENV[4] == 'P' && ROLE_ENV[4] == 'V' && AUTH_METHOD_ENV[4] == 'V';
    assert JOB_CONTAINER_ENV[4] == 'J' && JOB_WORKLOAD_ENV[4] == 'J' && JOB_CONTAINER_ENV[8] != JOB_WORKLOAD_ENV[8];
    assert |ROLE_ENV| != |AUTH_METHOD_ENV|;
  }

  /* ---------- An injected container in terms of the pod ---------- */

  const OWNED := {"VSI_SECRETS_TEMPLATES_PLACEHOLDER", "VSI_PROXY_CONFIG_PLACEHOLDER", "VSI_JOB_CNT_NAME",
                  "VSI_JOB_WORKLOAD", "VSI_VAULT_ROLE", "VSI_VAULT_AUTH_METHOD"}

  /** r is the configured container c as injected into the pod: its image, its role and authentication
      variables, and the volumes of its service-account mounts; every other field, every variable the injector
      does not own and every other mount is the configured one. */
  ghost predicate InjectedAs(cfg: VSIConfig, pod: Pod, c: Container, r: Container) {
    var image := Raw(cfg, pod.annotations, "vault-image");
    && r.name == c.name && r.lifecycle == c.lifecycle && r.rest == c.rest && r.command == Normal(c).command
    && r.image == (if image != "" && c.name in {"tvsi-vault-agent-init", "tvsi-vault-agent"} then image else c.image)
    && |r.env| == |c.env| && (forall i :: 0 <= i < |c.env| ==> VariableAs(cfg, pod, c.env[i], r.env[i]))
    && |r.volumeMounts| == |c.volumeMounts|
    && (forall j :: 0 <= j < |c.volumeMounts| ==> MountAs(cfg, pod, c.volumeMounts[j], r.volumeMounts[j]))
  }

  predicate VariableAs(cfg: VSIConfig, pod: Pod, e: EnvVar, r: EnvVar) {
    && r.name == e.name && r.rest == e.rest
    && (e.name == "VSI_VAULT_ROLE" ==> r.value == GivenRole(cfg, pod))
    && (e.name == "VSI_VAULT_AUTH_METHOD" ==> r.value == GivenAuth(cfg, pod))
    && (e.name !in OWNED ==> r.value == e.value)
  }

  ghost predicate MountAs(cfg: VSIConfig, pod: Pod, m: VolumeMount, r: VolumeMount) {
    && r.mountPath == m.mountPath && r.rest == m.rest
    && (if m.mountPath == "/var/run/secrets/kubernetes.io/serviceaccount" then
          NamedByFirst(pod.containers, m.mountPath, r.name)
        else if m.mountPath == "/var/run/secrets/talend/vault-sidecar-injector/serviceaccount" then
          forall path :: TokenPath(Raw(cfg, pod.annotations, "sa-token"), path) ==>
            NamedByFirst(pod.containers, path, r.name)
        else r.name == m.name)
  }

  lemma ResolvedAs(cfg: VSIConfig, pod: Pod, c: Container, basePath: string, cs: seq<Container>)
    requires ContextFor(cfg, pod).Success?
    ensures InjectedAs(cfg, pod, c, Normal(Resolved(c, basePath, cs, ContextFor(cfg, pod).value)))
  {
    var ctx := ContextFor(cfg, pod).value;
    ContextGiven(cfg, pod);
    forall i | 0 <= i < |c.env| {
      ResolvedVariableAs(cfg, pod, c.env[i], basePath, cs, c.name);
    }
    forall j | 0 <= j < |c.volumeMounts| {
      ResolvedMountAs(cfg, pod, c.volumeMounts[j]);
    }
    ResolvedParts(c, basePath, cs, ctx);
  }

  lemma ResolvedParts(c: Container, basePath: string, cs: seq<Container>, ctx: InjectionContext)
    ensures var r := Normal(Resolved(c, basePath, cs, ctx));
      && r.name == c.name && r.lifecycle == c.lifecycle && r.rest == c.rest && r.command == Normal(c).command
      && r.image ==
         (if ctx.vaultImage != "" && c.name in {VAULT_AGENT_INIT, VAULT_AGENT} then ctx.vaultImage else c.image)
      && |r.env| == |c.env| && |r.volumeMounts| == |c.volumeMounts|
      && (forall i :: 0 <= i < |c.env| ==> r.env[i] == ResolveEnv(c.env[i], basePath, cs, c.name, ctx))
      && (forall j :: 0 <= j < |c.volumeMounts| ==> r.volumeMounts[j] == ResolveMount(c.volumeMounts[j], ctx))
  {
  }

  lemma ResolvedVariableAs(cfg: VSIConfig, pod: Pod, e: EnvVar, basePath: string, cs: seq<Container>, name: string)
    requires ContextFor(cfg, pod).Success?
    ensures VariableAs(cfg, pod, e, ResolveEnv(e, basePath, cs, name, ContextFor(cfg, pod).value))
  {
    ContextGiven(cfg, pod);
    ContextValid(cfg, pod);
    ResolvedEnv(e, basePath, cs, name, ContextFor(cfg, pod).value);
    OwnedNames();
  }

  lemma ResolvedMountAs(cfg: VSIConfig, pod: Pod, m: VolumeMount)
    requires ContextFor(cfg, pod).Success?
    ensures MountAs(cfg, pod, m, ResolveMount(m, ContextFor(cfg, pod).value))
  {
    PathsDiffer();
    TokenPathIs(cfg, pod.annotations, VaultSAMountPath(cfg, pod.annotations));
    ContextVolumes(cfg, pod, VaultSAMountPath(cfg, pod.annotations));
    forall path | TokenPath(Raw(cfg, pod.annotations, "sa-token"), path)
      ensures path == VaultSAMountPath(cfg, pod.annotations)
    {
      TokenPathIs(cfg, pod.annotations, path);
    }
  }

  /** Every injected init container and every injected sidecar is a configured one, injected as above. */
  lemma InitMeaning(cfg: VSIConfig, pod: Pod, k: nat) returns (c: Container)
    requires ContextFor(cfg, pod).Success? && k < |InjectedInits(cfg, pod, ContextFor(cfg, pod).value)|
    ensures c in cfg.injection.initContainers
    ensures InjectedAs(cfg, pod, c, InjectedInits(cfg, pod, ContextFor(cfg, pod).value)[k])
  {
    c := FrontedFrom(
      cfg.injection.initContainers, PATH_INIT_CONTAINERS, pod.initContainers, ContextFor(cfg, pod).value, k);
    ResolvedAs(cfg, pod, c, PATH_INIT_CONTAINERS, pod.initContainers);
  }

  lemma SidecarMeaning(cfg: VSIConfig, pod: Pod, k: nat) returns (c: Container)
    requires ContextFor(cfg, pod).Success? && k < |InjectedSidecars(cfg, pod, ContextFor(cfg, pod).value)|
    ensures c in cfg.injection.containers
    ensures InjectedAs(cfg, pod, c, InjectedSidecars(cfg, pod, ContextFor(cfg, pod).value)[k])
  {
    c := FrontedFrom(cfg.injection.containers, PATH_CONTAINERS, pod.containers, ContextFor(cfg, pod).value, k);
    ResolvedAs(cfg, pod, c, PATH_CONTAINERS, pod.containers);
  }

  /** Which containers are injected, in terms of the annotations and of what the configuration declares. */
  lemma InjectedNames(cfg: VSIConfig, pod: Pod, name: string)
    requires ContextFor(cfg, pod).Success?
    ensures var ctx, a := ContextFor(cfg, pod).value, pod.annotations;
      HasNamed(InjectedInits(cfg, pod, ctx), name) <==>
      && HasNamed(cfg.injection.initContainers, name) && StaticSecrets(cfg, a)
      && (name == "tvsi-vault-agent-init" || (name == "tvsi-env-init" && EnvSecrets(cfg, a)))
    ensures var ctx, a := ContextFor(cfg, pod).value, pod.annotations;
      var dynamic := SecretsRequested(cfg, a) && !StaticSecrets(cfg, a);
      HasNamed(InjectedSidecars(cfg, pod, ctx), name) <==>
      && HasNamed(cfg.injection.containers, name)
      && (|| (name == "tvsi-vault-agent" && (dynamic || ProxyRequested(cfg, a) || ActiveJob(cfg, a)))
          || (name == "tvsi-job-babysitter" && ActiveJob(cfg, a)))
  {
    var ctx := ContextFor(cfg, pod).value;
    ContextFacts(cfg, pod);
    InjectionTable(ctx, name);
    FrontedNamed(cfg.injection.initContainers, PATH_INIT_CONTAINERS, pod.initContainers, ctx, name);
    FrontedNamed(cfg.injection.containers, PATH_CONTAINERS, pod.containers, ctx, name);
  }

  /** Job mode is active unless static secrets are the only other mode. */
  predicate ActiveJob(cfg: VSIConfig, a: map<string, string>) {
    JobRequested(cfg, a) && !(StaticSecrets(cfg, a) && !ProxyRequested(cfg, a))
  }

  /* ---------- Where the templates arrive ---------- */

  /** The computed template is the concatenation of the rendered blocks. */
  lemma TemplateComputed(cfg: VSIConfig, pod: Pod)
    requires ContextFor(cfg, pod).Success? && Enabled(ContextFor(cfg, pod).value, SECRETS)
    ensures !CountMismatch(cfg, pod.labels, pod.annotations)
    ensures TemplateOf(ContextFor(cfg, pod).value, SECRETS) == TemplateText(cfg, pod)
  {
    ContextFacts(cfg, pod);
    BlocksConcat(cfg.templateBlock, AllValues(cfg, pod.labels, pod.annotations));
  }

  function TemplateText(cfg: VSIConfig, pod: Pod): string
    requires !CountMismatch(cfg, pod.labels, pod.annotations)
  {
    Concat(Rendered(cfg.templateBlock, AllValues(cfg, pod.labels, pod.annotations)))
  }

  /** An injected init agent finds all rendered blocks in its templates variable. */
  lemma InitTemplates(cfg: VSIConfig, pod: Pod, k: nat, i: nat)
    requires ContextFor(cfg, pod).Success?
    requires var injected := InjectedInits(cfg, pod, ContextFor(cfg, pod).value);
      k < |injected| && i < |injected[k].env| && injected[k].env[i].name == "VSI_SECRETS_TEMPLATES_PLACEHOLDER"
    ensures !CountMismatch(cfg, pod.labels, pod.annotations)
    ensures InjectedInits(cfg, pod, ContextFor(cfg, pod).value)[k].env[i].value == TemplateText(cfg, pod)
  {
    var ctx := ContextFor(cfg, pod).value;
    ContextValid(cfg, pod);
    var c := FrontedFrom(cfg.injection.initContainers, PATH_INIT_CONTAINERS, pod.initContainers, ctx, k);
    ResolvedEnv(c.env[i], PATH_INIT_CONTAINERS, pod.initContainers, c.name, ctx);
    InjectionTable(ctx, c.name);
    TemplateComputed(cfg, pod);
  }

  /** An injected agent sidecar finds them there when secrets are dynamic; a sidecar that serves only the
      proxy or a job keeps the configured value. */
  lemma SidecarTemplates(cfg: VSIConfig, pod: Pod, k: nat, i: nat) returns (c: Container)
    requires ContextFor(cfg, pod).Success?
    requires var injected := InjectedSidecars(cfg, pod, ContextFor(cfg, pod).value);
      k < |injected| && i < |injected[k].env| && injected[k].env[i].name == "VSI_SECRETS_TEMPLATES_PLACEHOLDER"
    ensures var r := InjectedSidecars(cfg, pod, ContextFor(cfg, pod).value)[k];
      var dynamic := SecretsRequested(cfg, pod.annotations) && !StaticSecrets(cfg, pod.annotations);
      && c in cfg.injection.containers && c.name == r.name && |c.env| == |r.env| && c.env[i].name == r.env[i].name
      && (dynamic && r.name == "tvsi-vault-agent" ==>
            !CountMismatch(cfg, pod.labels, pod.annotations) && r.env[i].value == TemplateText(cfg, pod))
      && (!(dynamic && r.name == "tvsi-vault-agent") ==> r.env[i].value == c.env[i].value)
  {
    var ctx := ContextFor(cfg, pod).value;
    c := FrontedFrom(cfg.injection.containers, PATH_CONTAINERS, pod.containers, ctx, k);
    SameName(c.env[i], PATH_CONTAINERS, pod.containers, c.name, ctx);
    TemplatesVariable(cfg, pod, c.env[i], c.name);
  }

  lemma TemplatesVariable(cfg: VSIConfig, pod: Pod, e: EnvVar, name: string)
    requires ContextFor(cfg, pod).Success? && e.name == TEMPLATES_ENV
    ensures var r := ResolveEnv(e, PATH_CONTAINERS, pod.containers, name, ContextFor(cfg, pod).value);
      if SecretsRequested(cfg, pod.annotations) && !StaticSecrets(cfg, pod.annotations) && name == VAULT_AGENT
      then !CountMismatch(cfg, pod.labels, pod.annotations) && r.value == TemplateText(cfg, pod)
      else r.value == e.value
  {
    ContextFacts(cfg, pod);
    TemplatesResolved(e, pod.containers, name, ContextFor(cfg, pod).value);
    if SecretsRequested(cfg, pod.annotations) {
      TemplateComputed(cfg, pod);
    }
  }

  lemma TemplatesResolved(e: EnvVar, cs: seq<Container>, name: string, ctx: InjectionContext)
    requires ValidContext(ctx) && e.name == TEMPLATES_ENV
    ensures ResolveEnv(e, PATH_CONTAINERS, cs, name, ctx).value ==
            if DynamicSecrets(ctx) && name == VAULT_AGENT then TemplateOf(ctx, SECRETS) else e.value
  {
    ResolvedEnv(e, PATH_CONTAINERS, cs, name, ctx);
    OwnedNames();
  }

  /* ---------- The pod's own containers and volumes ---------- */

  /** The secrets mount is added at the default path unless the container has one. */
  predicate MountsCompleted(before: seq<VolumeMount>, after: seq<VolumeMount>) {
    after == if exists j :: 0 <= j < |before| && before[j].name == "secrets" then before
             else before + [VolumeMount("secrets", "/opt/talend/secrets", map[])]
  }

  /** Hooks are added for dynamic secrets when asked for and a command is configured. */
  predicate HooksAdded(cfg: VSIConfig, a: map<string, string>) {
    && SecretsRequested(cfg, a) && !StaticSecrets(cfg, a) && SaysYes(Raw(cfg, a, "secrets-hook"))
    && cfg.postStart.Some? && cfg.postStart.value.exec.Some?
  }

  /** The handler's JSON form: its command's words with the mount path in place of each placeholder. */
  predicate HandlerOf(handler: Json, command: seq<string>, mountPath: string) {
    && handler.Obj? && handler.fields.Keys == {"exec"} && handler.fields["exec"].Obj?
    && var exec := handler.fields["exec"].fields;
       if command == [] then exec == map[]
       else
         && exec.Keys == {"command"} && exec["command"].Arr?
         && |exec["command"].items| == |command|
         && forall k :: 0 <= k < |command| ==>
              exec["command"].items[k] == Str(Join(Split(command[k], "<VSI_SECRETS_VOL_MOUNTPATH>"), mountPath))
  }

  lemma HandlerWritten(command: seq<string>, mountPath: string)
    ensures HandlerOf(WriteHandler(HookCommand(command, mountPath)), command, mountPath)
  {
    forall k | 0 <= k < |command|
      ensures HookCommand(command, mountPath)[k] == Join(Split(command[k], "<VSI_SECRETS_VOL_MOUNTPATH>"), mountPath)
    {
      ReplaceIsJoin(command[k], MOUNT_PATH_TAG, mountPath);
    }
    var items := WriteAll(HookCommand(command, mountPath), WriteText);
    assert |items| == |command| && forall k :: 0 <= k < |items| ==> items[k] == Str(HookCommand(command, mountPath)[k]);
  }

  lemma ChangeMeaning(cfg: VSIConfig, pod: Pod)
    requires ContextFor(cfg, pod).Success?
    ensures var a := pod.annotations;
      ChangeFor(cfg, pod, ContextFor(cfg, pod).value) ==
      if StaticSecrets(cfg, a) && EnvSecrets(cfg, a) then Wrap
      else if HooksAdded(cfg, a) then Hook(cfg.postStart.value.exec.value)
      else Untouched
  {
    ContextFacts(cfg, pod);
  }

  /** What the mutation makes of a submitted container: name, image, variables and unknown fields are kept and
      the secrets mount is completed; its command is kept unless commands are wrapped; its lifecycle is kept
      unless hooks are added, and then only its post-start handler is replaced. */
  lemma OwnContainerFrame(cfg: VSIConfig, pod: Pod, i: nat)
    requires ContextFor(cfg, pod).Success? && i < |pod.containers|
    ensures var ctx, a := ContextFor(cfg, pod).value, pod.annotations;
      var before, n := pod.containers[i], |InjectedSidecars(cfg, pod, ctx)|;
      n + i < |MutatedPod(cfg, pod, ctx).containers| &&
      var after := MutatedPod(cfg, pod, ctx).containers[n + i];
      && OwnFieldsKept(before, after) && MountsCompleted(before.volumeMounts, after.volumeMounts)
      && (!(StaticSecrets(cfg, a) && EnvSecrets(cfg, a)) ==>
            && after.command.GetOr([]) == before.command.GetOr([])
            && (after.command == before.command || HooksAdded(cfg, a)))
      && (!HooksAdded(cfg, a) ==> after.lifecycle == before.lifecycle)
      && (HooksAdded(cfg, a) ==>
            && HookAdded(before, after)
            && forall path :: SecretsPath(before, path) ==>
                 HandlerOf(after.lifecycle.value.postStart.value, cfg.postStart.value.exec.value,
                           if path == "" then "/opt/talend/secrets" else path))
  {
    var ctx := ContextFor(cfg, pod).value;
    OwnAt(cfg, pod, ctx, i);
    ChangeMeaning(cfg, pod);
    OneContainerFrame(ChangeFor(cfg, pod, ctx), pod.containers[i]);
    CommandKept(ChangeFor(cfg, pod, ctx), pod.containers[i]);
    if HooksAdded(cfg, pod.annotations) {
      HookedFrame(pod.containers[i], cfg.postStart.value.exec.value);
    }
  }

  lemma CommandKept(change: OwnChange, before: Container)
    ensures var after := Mounted(Rewritten(change, before));
      && (change != Wrap ==> after.command.GetOr([]) == before.command.GetOr([]))
      && (change == Untouched ==> after.command == before.command)
      && (!change.Hook? ==> after.lifecycle == before.lifecycle)
  {
  }

  lemma HookedFrame(before: Container, words: seq<string>)
    ensures var after := Mounted(Rewritten(Hook(words), before));
      && HookAdded(before, after)
      && forall path :: SecretsPath(before, path) ==>
           HandlerOf(after.lifecycle.value.postStart.value, words, if path == "" then "/opt/talend/secrets" else path)
  {
    SecretsPathFound(before);
    HandlerWritten(words, SecretsDir(before));
  }

  predicate OwnFieldsKept(before: Container, after: Container) {
    after.name == before.name && after.image == before.image && after.env == before.env && after.rest == before.rest
  }

  /** A post-start handler beside whatever else the lifecycle held. */
  predicate HookAdded(before: Container, after: Container) {
    && after.lifecycle.Some? && after.lifecycle.value.postStart.Some?
    && after.lifecycle.value.rest == (if before.lifecycle.Some? then before.lifecycle.value.rest else map[])
  }

  lemma OneContainerFrame(change: OwnChange, before: Container)
    ensures var after := Mounted(Rewritten(change, before));
      OwnFieldsKept(before, after) && MountsCompleted(before.volumeMounts, after.volumeMounts)
  {
    assert Rewritten(change, before).volumeMounts == before.volumeMounts;
  }

  /** Of a submitted init container only the mounts are completed. */
  lemma OwnInitFrame(cfg: VSIConfig, pod: Pod, ctx: InjectionContext, i: nat)
    requires i < |pod.initContainers|
    ensures var before, n := pod.initContainers[i], |InjectedInits(cfg, pod, ctx)|;
      n + i < |MutatedPod(cfg, pod, ctx).initContainers| &&
      var after := MutatedPod(cfg, pod, ctx).initContainers[n + i];
      after == before.(volumeMounts := after.volumeMounts) && MountsCompleted(before.volumeMounts, after.volumeMounts)
  {
    var n := |InjectedInits(cfg, pod, ctx)|;
    assert MutatedPod(cfg, pod, ctx).initContainers[n + i] == Mounted(pod.initContainers[i]);
  }

  /** The configured volumes added, in order and whole: all but one named "secrets" when the pod has a volume
      of that name. */
  lemma AddedInOrder(configured: seq<Volume>, podVolumes: seq<Volume>) returns (idx: seq<nat>)
    ensures Increasing(idx) && |idx| == |AddedVolumes(configured, podVolumes)|
    ensures forall k :: 0 <= k < |idx| ==>
      idx[k] < |configured| && AddedVolumes(configured, podVolumes)[k] == configured[idx[k]]
    ensures forall i :: 0 <= i < |configured| ==>
      (i in idx <==> !(configured[i].name == "secrets" && Declares(podVolumes, "secrets")))
  {
    idx := AddedIndices(configured, podVolumes, HasSecretsVolume(podVolumes));
    assert HasSecretsVolume(podVolumes) <==> Declares(podVolumes, "secrets");
  }

  /** The elements at increasing positions. */
  predicate Picks(idx: seq<nat>, from: seq<Volume>, got: seq<Volume>) {
    && Increasing(idx) && |idx| == |got|
    && forall k :: 0 <= k < |idx| ==> idx[k] < |from| && got[k] == from[idx[k]]
  }

  lemma PickLast(idx: seq<nat>, from: seq<Volume>, got: seq<Volume>)
    requires from != [] && Picks(idx, from[..|from| - 1], got)
    ensures Picks(idx, from, got) && |from| - 1 !in idx
    ensures Picks(idx + [|from| - 1], from, got + [from[|from| - 1]])
    ensures forall i :: i in idx + [|from| - 1] <==> i in idx || i == |from| - 1
  {
    var n := |from| - 1;
    forall k | 0 <= k < |idx|
      ensures idx[k] < n && from[idx[k]] == got[k]
    {
      assert from[..n][idx[k]] == from[idx[k]];
    }
  }

  lemma {:induction false} AddedIndices(configured: seq<Volume>, podVolumes: seq<Volume>, has: bool)
    returns (idx: seq<nat>)
    requires has == HasSecretsVolume(podVolumes)
    ensures Picks(idx, configured, AddedVolumes(configured, podVolumes))
    ensures forall i :: 0 <= i < |configured| ==> (i in idx <==> !(configured[i].name == SECRETS_VOLUME && has))
  {
    if configured == [] {
      idx := [];
    } else {
      var n := |configured| - 1;
      idx := AddedIndices(configured[..n], podVolumes, has);
      assert forall i :: 0 <= i < n ==> configured[..n][i] == configured[i];
      PickLast(idx, configured, AddedVolumes(configured[..n], podVolumes));
      AddedSnoc(configured, podVolumes, has);
      if configured[n].name == SECRETS_VOLUME && has {
        assert AddedVolumes(configured[..n], podVolumes) + [] == AddedVolumes(configured[..n], podVolumes);
      } else {
        idx := idx + [n];
      }
    }
  }

  lemma AddedSnoc(configured: seq<Volume>, podVolumes: seq<Volume>, has: bool)
    requires configured != [] && has == HasSecretsVolume(podVolumes)
    ensures var n := |configured| - 1;
      AddedVolumes(configured, podVolumes) ==
      AddedVolumes(configured[..n], podVolumes)
      + if configured[n].name == SECRETS_VOLUME && has then [] else [configured[n]]
  {
  }

  /** The volumes of the mutated pod: its own, then the configured ones added. */
  lemma MutatedVolumes(cfg: VSIConfig, pod: Pod, ctx: InjectionContext) returns (idx: seq<nat>)
    ensures Increasing(idx)
    ensures var after, configured := MutatedPod(cfg, pod, ctx).volumes, cfg.injection.volumes;
      && |after| == |pod.volumes| + |idx| && after[..|pod.volumes|] == pod.volumes
      && (forall k :: 0 <= k < |idx| ==> idx[k] < |configured| && after[|pod.volumes| + k] == configured[idx[k]])
      && (forall i :: 0 <= i < |configured| ==>
            (i in idx <==> !(configured[i].name == "secrets" && Declares(pod.volumes, "secrets"))))
  {
    idx := AddedInOrder(cfg.injection.volumes, pod.volumes);
  }

  /** An injected agent sidecar finds the filled proxy configuration when the proxy is asked for; else it
      keeps the configured value. */
  lemma SidecarProxy(cfg: VSIConfig, pod: Pod, k: nat, i: nat) returns (c: Container)
    requires ContextFor(cfg, pod).Success?
    requires var injected := InjectedSidecars(cfg, pod, ContextFor(cfg, pod).value);
      && k < |injected| && i < |injected[k].env| && injected[k].env[i].name == "VSI_PROXY_CONFIG_PLACEHOLDER"
    ensures var r := InjectedSidecars(cfg, pod, ContextFor(cfg, pod).value)[k];
      var port := Raw(cfg, pod.annotations, "proxy-port");
      && c in cfg.injection.containers && c.name == r.name && |c.env| == |r.env|
      && r.env[i].value ==
         if ProxyRequested(cfg, pod.annotations) && r.name == "tvsi-vault-agent"
         then ProxyFilled(cfg.proxyConfig, if port == "" then "8200" else port)
         else c.env[i].value
  {
    var ctx := ContextFor(cfg, pod).value;
    c := FrontedFrom(cfg.injection.containers, PATH_CONTAINERS, pod.containers, ctx, k);
    SameName(c.env[i], PATH_CONTAINERS, pod.containers, c.name, ctx);
    ProxyVariable(cfg, pod, c.env[i], c.name);
  }

  lemma SameName(e: EnvVar, basePath: string, cs: seq<Container>, name: string, ctx: InjectionContext)
    ensures ResolveEnv(e, basePath, cs, name, ctx).name == e.name
  {
  }

  lemma ProxyVariable(cfg: VSIConfig, pod: Pod, e: EnvVar, name: string)
    requires ContextFor(cfg, pod).Success? && e.name == PROXY_CONFIG_ENV
    ensures var r := ResolveEnv(e, PATH_CONTAINERS, pod.containers, name, ContextFor(cfg, pod).value);
      var port := Raw(cfg, pod.annotations, "proxy-port");
      r.value ==
      if ProxyRequested(cfg, pod.annotations) && name == VAULT_AGENT
      then ProxyFilled(cfg.proxyConfig, if port == "" then "8200" else port)
      else e.value
  {
    ContextFacts(cfg, pod);
    ProxyResolved(e, pod.containers, name, ContextFor(cfg, pod).value);
    if ProxyRequested(cfg, pod.annotations) {
      ProxyTemplate(cfg, pod);
    }
  }

  lemma ProxyResolved(e: EnvVar, cs: seq<Container>, name: string, ctx: InjectionContext)
    requires ValidContext(ctx) && e.name == PROXY_CONFIG_ENV
    ensures ResolveEnv(e, PATH_CONTAINERS, cs, name, ctx).value ==
            if Enabled(ctx, PROXY) && name == VAULT_AGENT then TemplateOf(ctx, PROXY) else e.value
  {
    ResolvedEnv(e, PATH_CONTAINERS, cs, name, ctx);
    OwnedNames();
  }

  /** Every port placeholder replaced by the port. */
  function ProxyFilled(text: string, port: string): string {
    Join(Split(text, "<VSI_PROXY_PORT>"), port)
  }

  lemma ProxyTemplate(cfg: VSIConfig, pod: Pod)
    requires ContextFor(cfg, pod).Success? && Enabled(ContextFor(cfg, pod).value, PROXY)
    ensures var port := Raw(cfg, pod.annotations, "proxy-port");
      TemplateOf(ContextFor(cfg, pod).value, PROXY) ==
      ProxyFilled(cfg.proxyConfig, if port == "" then "8200" else port)
  {
    ProxyText(cfg, pod.annotations);
    ProxyConfigured(cfg, pod);
  }

  lemma ProxyConfigured(cfg: VSIConfig, pod: Pod)
    requires ContextFor(cfg, pod).Success? && Enabled(ContextFor(cfg, pod).value, PROXY)
    ensures TemplateOf(ContextFor(cfg, pod).value, PROXY) == ProxyModeCompute(cfg, pod.annotations).template
  {
    assert |SECRETS| != |PROXY|;
  }

  /* ---------- Job pairing ---------- */

  /** The job variables of an injected sidecar: it runs beside a job and watches the named container. */
  predicate JobVariables(c: Container, watched: string) {
    c.name in {"tvsi-vault-agent", "tvsi-job-babysitter"} ==>
      forall i :: 0 <= i < |c.env| ==>
        && (c.env[i].name == "VSI_JOB_WORKLOAD" ==> c.env[i].value == "true")
        && (c.env[i].name == "VSI_JOB_CNT_NAME" ==> c.env[i].value == watched)
  }

  /** With job mode on, the mutated pod starts with a babysitter exactly when job mode is active and the
      configuration declares one, and with an agent exactly when it declares one and job mode is active; so,
      both declared, with one iff with the other. The babysitter watches the pod's only container and the
      agent knows it runs beside a job. */
  lemma JobPairing(cfg: VSIConfig, pod: Pod)
    requires PodPatch(cfg, pod).Success? && JobRequested(cfg, pod.annotations)
    ensures cfg.injection.containers != [] ==> |pod.containers| == 1
    ensures var ctx, configured := ContextFor(cfg, pod).value, cfg.injection.containers;
      var injected, active := InjectedSidecars(cfg, pod, ctx), ActiveJob(cfg, pod.annotations);
      && injected <= MutatedPod(cfg, pod, ctx).containers
      && (HasNamed(injected, "tvsi-vault-agent") <==> active && HasNamed(configured, "tvsi-vault-agent"))
      && (HasNamed(injected, "tvsi-job-babysitter") <==> active && HasNamed(configured, "tvsi-job-babysitter"))
      && (HasNamed(configured, "tvsi-vault-agent") && HasNamed(configured, "tvsi-job-babysitter") ==>
            (HasNamed(injected, "tvsi-vault-agent") <==> HasNamed(injected, "tvsi-job-babysitter")))
      && forall k :: 0 <= k < |injected| ==> JobVariables(injected[k], pod.containers[0].name)
  {
    var ctx := ContextFor(cfg, pod).value;
    ContextFacts(cfg, pod);
    InjectedNames(cfg, pod, "tvsi-vault-agent");
    InjectedNames(cfg, pod, "tvsi-job-babysitter");
    InjectedJobVariables(cfg, pod, ctx);
  }

  lemma InjectedJobVariables(cfg: VSIConfig, pod: Pod, ctx: InjectionContext)
    requires ValidContext(ctx) && Enabled(ctx, JOB) && pod.containers != []
    ensures var injected := InjectedSidecars(cfg, pod, ctx);
      forall k :: 0 <= k < |injected| ==> JobVariables(injected[k], pod.containers[0].name)
  {
    var injected := InjectedSidecars(cfg, pod, ctx);
    forall k | 0 <= k < |injected|
      ensures JobVariables(injected[k], pod.containers[0].name)
    {
      var c := FrontedFrom(cfg.injection.containers, PATH_CONTAINERS, pod.containers, ctx, k);
      InjectionTable(ctx, c.name);
      ResolvedJobVariables(c, pod.containers, ctx);
    }
  }

  lemma ResolvedJobVariables(c: Container, cs: seq<Container>, ctx: InjectionContext)
    requires ValidContext(ctx) && JobActive(ctx) && cs != []
    ensures JobVariables(Resolved(c, PATH_CONTAINERS, cs, ctx), cs[0].name)
  {
    OwnedNames();
    forall i | 0 <= i < |c.env| {
      ResolvedEnv(c.env[i], PATH_CONTAINERS, cs, c.name, ctx);
    }
  }

  /* ---------- Environment injection ---------- */

  /** The mutated pod's init containers start with the helper exactly when static secrets are asked for as
      variables and the configuration declares the helper. With the same annotations, and only then, the
      commands of its own containers change. */
  lemma WrappedIffHelperInjected(cfg: VSIConfig, pod: Pod)
    requires PodPatch(cfg, pod).Success?
    ensures var ctx, configured := ContextFor(cfg, pod).value, cfg.injection.initContainers;
      var injected := InjectedInits(cfg, pod, ctx);
      var wraps := StaticSecrets(cfg, pod.annotations) && EnvSecrets(cfg, pod.annotations);
      && injected <= MutatedPod(cfg, pod, ctx).initContainers
      && (HasNamed(injected, "tvsi-env-init") <==> wraps && HasNamed(configured, "tvsi-env-init"))
      && forall i :: 0 <= i < |pod.containers| ==> (wraps <==> CommandChanged(cfg, pod, i))
  {
    InjectedNames(cfg, pod, "tvsi-env-init");
    forall i | 0 <= i < |pod.containers|
      ensures (StaticSecrets(cfg, pod.annotations) && EnvSecrets(cfg, pod.annotations)) <==> CommandChanged(cfg, pod, i)
    {
      WrapsOrNot(cfg, pod, i);
    }
  }

  /** The mutated pod's own container i has another command than the submitted one. */
  predicate CommandChanged(cfg: VSIConfig, pod: Pod, i: nat)
    requires ContextFor(cfg, pod).Success? && i < |pod.containers|
  {
    var ctx := ContextFor(cfg, pod).value;
    MutatedPod(cfg, pod, ctx).containers[|InjectedSidecars(cfg, pod, ctx)| + i].command.GetOr([])
    != pod.containers[i].command.GetOr([])
  }

  lemma WrapsOrNot(cfg: VSIConfig, pod: Pod, i: nat)
    requires PodPatch(cfg, pod).Success? && i < |pod.containers|
    ensures (StaticSecrets(cfg, pod.annotations) && EnvSecrets(cfg, pod.annotations)) <==> CommandChanged(cfg, pod, i)
  {
    ChangeMeaning(cfg, pod);
    OwnAt(cfg, pod, ContextFor(cfg, pod).value, i);
    CommandChanges(cfg, pod, i);
  }

  lemma CommandChanges(cfg: VSIConfig, pod: Pod, i: nat)
    requires PodPatch(cfg, pod).Success? && i < |pod.containers|
    ensures var change := ChangeFor(cfg, pod, ContextFor(cfg, pod).value);
      (change == Wrap ==> pod.containers[i].command.Some?) &&
      (change == Wrap <==> Mounted(Rewritten(change, pod.containers[i])).command.GetOr([])
                           != pod.containers[i].command.GetOr([]))
  {
    FirstCommandlessFound(pod.containers);
  }

  /** The words of a container's process: its command, then its arguments (a field the injector leaves
      alone). */
  function Process(c: Container, args: seq<string>): seq<string> {
    c.command.GetOr([]) + args
  }

  lemma {:induction false} SecretsMountAdded(mounts: seq<VolumeMount>, m: VolumeMount)
    requires m.name == SECRETS_VOLUME && forall i :: 0 <= i < |mounts| ==> mounts[i].name != SECRETS_VOLUME
    ensures SecretsMountPath(mounts) == "" && SecretsMountPath(mounts + [m]) == m.mountPath
  {
    if mounts == [] {
      assert mounts + [m] == [m];
    } else {
      SecretsMountAdded(mounts[1..], m);
      assert (mounts + [m])[1..] == mounts[1..] + [m] && (mounts + [m])[0] == mounts[0];
    }
  }

  /** After the mounts are added, the secrets are where the wrapped command looks for them. */
  lemma MountedSecretsDir(c: Container)
    requires HasSecretsMount(c) ==> SecretsMountPath(c.volumeMounts) != ""
    ensures SecretsMountPath(Mounted(c).volumeMounts) == SecretsDir(c)
  {
    if !HasSecretsMount(c) {
      SecretsMountAdded(c.volumeMounts, SECRETS_MOUNT);
    }
  }

  lemma EnvProcessPlain()
    ensures PlainFile(ENV_PROCESS)
  {
    assert |ENV_PROCESS| > 2;
  }

  /** The helper's file in a cleaned directory. */
  predicate HelperIn(dir: string, word: string) {
    word == if dir == "/" then "/vaultinjector-env" else if dir == "." then "vaultinjector-env"
            else dir + "/vaultinjector-env"
  }

  /** The wrapped container: its first word is the helper in the cleaned directory of its own secrets
      mount, and the helper unwraps its arguments to the submitted process. */
  ghost predicate WrapsProcess(after: Container, before: Container, args: seq<string>) {
    && after.name == before.name
    && after.command.Some? && after.command.value != []
    && (exists path :: SecretsPath(after, path) && HelperIn(Clean(path), after.command.value[0]))
    && Entrypoint(Process(after, args)) ==
         (if Process(before, args) == [] then None else Some(Process(before, args)))
  }

  lemma WrappedContainer(c: Container, args: seq<string>)
    requires c.command.Some?
    requires HasSecretsMount(c) ==> SecretsMountPath(c.volumeMounts) != ""
    ensures WrapsProcess(Mounted(Rewritten(Wrap, c)), c, args)
  {
    MountedSecretsDir(c);
    HelperPlace(SecretsDir(c));
    Unwraps(JoinPath(SecretsDir(c), ENV_PROCESS), c.command.value, args);
    var after := Mounted(Rewritten(Wrap, c));
    SecretsPathFound(after);
    assert after.volumeMounts == Mounted(c).volumeMounts;
    assert SecretsPath(after, SecretsDir(c));
  }

  lemma HelperPlace(dir: string)
    requires dir != ""
    ensures HelperIn(Clean(dir), JoinPath(dir, ENV_PROCESS))
  {
    EnvProcessPlain();
    JoinPathFile(dir, ENV_PROCESS);
    SlashFirst(Clean(dir), ENV_PROCESS, "/vaultinjector-env");
    assert "/" + "vaultinjector-env" == "/vaultinjector-env";
  }

  lemma SlashFirst(dir: string, file: string, end: string)
    requires end == "/" + file
    ensures dir + "/" + file == dir + end
  {
  }

  predicate SecretsMountsPlaced(mounts: seq<VolumeMount>) {
    forall j :: 0 <= j < |mounts| && mounts[j].name == "secrets" ==> mounts[j].mountPath != ""
  }

  /** Every own container of a pod whose commands are wrapped. */
  lemma EnvInjection(cfg: VSIConfig, pod: Pod, i: nat, args: seq<string>)
    requires PodPatch(cfg, pod).Success? && i < |pod.containers|
    requires StaticSecrets(cfg, pod.annotations) && EnvSecrets(cfg, pod.annotations)
    requires SecretsMountsPlaced(pod.containers[i].volumeMounts)
    ensures var ctx := ContextFor(cfg, pod).value;
      var n := |InjectedSidecars(cfg, pod, ctx)|;
      var after := MutatedPod(cfg, pod, ctx).containers;
      n + i < |after| && WrapsProcess(after[n + i], pod.containers[i], args)
  {
    var ctx := ContextFor(cfg, pod).value;
    ChangeMeaning(cfg, pod);
    CommandChanges(cfg, pod, i);
    var j := SecretsPathIs(pod.containers[i].volumeMounts);
    WrappedContainer(pod.containers[i], args);
    OwnAt(cfg, pod, ctx, i);
  }

  lemma OwnAt(cfg: VSIConfig, pod: Pod, ctx: InjectionContext, i: nat)
    requires i < |pod.containers|
    ensures var n := |InjectedSidecars(cfg, pod, ctx)|;
      n + i < |MutatedPod(cfg, pod, ctx).containers| &&
      MutatedPod(cfg, pod, ctx).containers[n + i] == Mounted(Rewritten(ChangeFor(cfg, pod, ctx), pod.containers[i]))
  {
  }

  lemma Unwraps(helper: string, command: seq<string>, args: seq<string>)
    ensures Entrypoint([helper] + command + args) == if command + args == [] then None else Some(command + args)
  {
    assert ([helper] + command + args)[1..] == command + args;
  }

  /* ---------- References ---------- */

  predicate Declares(volumes: seq<Volume>, name: string) {
    exists i :: 0 <= i < |volumes| && volumes[i].name == name
  }

  predicate MountsDeclared(mounts: seq<VolumeMount>, volumes: seq<Volume>) {
    forall j :: 0 <= j < |mounts| ==> Declares(volumes, mounts[j].name)
  }

  /** Every mount of every container names a volume. */
  predicate AllMountsDeclared(cs: seq<Container>, volumes: seq<Volume>) {
    forall i :: 0 <= i < |cs| ==> MountsDeclared(cs[i].volumeMounts, volumes)
  }

  /** Configured mounts name configured volumes, service-account paths aside. */
  predicate ConfiguredMounts(configured: seq<Container>, volumes: seq<Volume>) {
    forall i, j :: 0 <= i < |configured| && 0 <= j < |configured[i].volumeMounts| ==>
      || configured[i].volumeMounts[j].mountPath in {K8S_SA_MOUNT_PATH, VAULT_SA_MOUNT_PATH}
      || Declares(volumes, configured[i].volumeMounts[j].name)
  }

  lemma DeclaresAppend(a: seq<Volume>, b: seq<Volume>, name: string)
    ensures Declares(a + b, name) <==> Declares(a, name) || Declares(b, name)
  {
    if Declares(a, name) {
      var i :| 0 <= i < |a| && a[i].name == name;
      assert (a + b)[i].name == name;
    }
    if Declares(b, name) {
      var i :| 0 <= i < |b| && b[i].name == name;
      assert (a + b)[|a| + i].name == name;
    }
  }

  lemma DeclaresSnoc(a: seq<Volume>, v: Volume, name: string)
    ensures Declares(a + [v], name) <==> Declares(a, name) || v.name == name
  {
    DeclaresAppend(a, [v], name);
    assert [v][0] == v;
  }

  lemma {:induction false} AddedDeclares(configured: seq<Volume>, podVolumes: seq<Volume>, name: string)
    ensures Declares(AddedVolumes(configured, podVolumes), name) <==>
      Declares(configured, name) && (name == SECRETS_VOLUME ==> !HasSecretsVolume(podVolumes))
  {
    if configured != [] {
      var n := |configured| - 1;
      AddedDeclares(configured[..n], podVolumes, name);
      assert configured == configured[..n] + [configured[n]];
      DeclaresSnoc(configured[..n], configured[n], name);
      var before := AddedVolumes(configured[..n], podVolumes);
      DeclaresSnoc(before, configured[n], name);
      assert before + [] == before;
    }
  }

  /** Whatever the configuration or the pod declared is declared in the mutated pod. */
  lemma StillDeclared(configured: seq<Volume>, podVolumes: seq<Volume>, name: string)
    requires Declares(podVolumes, name) || Declares(configured, name)
    ensures Declares(podVolumes + AddedVolumes(configured, podVolumes), name)
  {
    AddedDeclares(configured, podVolumes, name);
    DeclaresAppend(podVolumes, AddedVolumes(configured, podVolumes), name);
  }

  lemma {:induction false} FoundMountDeclared(cs: seq<Container>, volumes: seq<Volume>, mountPath: string)
    requires AllMountsDeclared(cs, volumes) && MountNameAt(AllMounts(cs), mountPath) != ""
    ensures Declares(volumes, MountNameAt(AllMounts(cs), mountPath))
  {
    AllMountsFlat(cs, volumes);
    FoundIn(AllMounts(cs), volumes, mountPath);
  }

  lemma {:induction false} AllMountsFlat(cs: seq<Container>, volumes: seq<Volume>)
    requires AllMountsDeclared(cs, volumes)
    ensures MountsDeclared(AllMounts(cs), volumes)
  {
    if cs != [] {
      AllMountsFlat(cs[1..], volumes);
    }
  }

  lemma {:induction false} FoundIn(mounts: seq<VolumeMount>, volumes: seq<Volume>, mountPath: string)
    requires MountsDeclared(mounts, volumes) && MountNameAt(mounts, mountPath) != ""
    ensures Declares(volumes, MountNameAt(mounts, mountPath))
    decreases |mounts|
  {
    if mounts[0].mountPath != mountPath {
      FoundIn(mounts[1..], volumes, mountPath);
    }
  }

  lemma InjectedMounts(
    configured: seq<Container>, basePath: string, cs: seq<Container>, ctx: InjectionContext,
    configuredVolumes: seq<Volume>, volumes: seq<Volume>)
    requires ConfiguredMounts(configured, configuredVolumes)
    requires forall name :: Declares(configuredVolumes, name) ==> Declares(volumes, name)
    requires Declares(volumes, ctx.k8sSATokenVolume) && Declares(volumes, ctx.vaultSATokenVolume)
    ensures AllMountsDeclared(Fronted(configured, basePath, cs, ctx), volumes)
  {
    var idx := InjectedInOrder(configured, basePath, cs, ctx);
    forall k | 0 <= k < |idx|
      ensures MountsDeclared(Injected(configured, basePath, cs, ctx)[k].volumeMounts, volumes)
    {
      var c := configured[idx[k]];
      forall j | 0 <= j < |c.volumeMounts|
        ensures Declares(volumes, ResolveMount(c.volumeMounts[j], ctx).name)
      {
      }
    }
    forall k | 0 <= k < |idx|
      ensures MountsDeclared(Fronted(configured, basePath, cs, ctx)[k].volumeMounts, volumes)
    {
      assert Normal(Injected(configured, basePath, cs, ctx)[k]).volumeMounts ==
             Injected(configured, basePath, cs, ctx)[k].volumeMounts;
      assert MountsDeclared(Injected(configured, basePath, cs, ctx)[k].volumeMounts, volumes);
    }
  }

  lemma OwnMounts(cs: seq<Container>, rewritten: seq<Container>, volumes: seq<Volume>)
    requires |rewritten| == |cs| && AllMountsDeclared(cs, volumes) && Declares(volumes, SECRETS_VOLUME)
    requires forall i :: 0 <= i < |cs| ==> rewritten[i].volumeMounts == cs[i].volumeMounts
    ensures AllMountsDeclared(MapContainers(rewritten, Mounted), volumes)
  {
    forall i | 0 <= i < |cs|
      ensures MountsDeclared(Mounted(rewritten[i]).volumeMounts, volumes)
    {
      assert MountsDeclared(cs[i].volumeMounts, volumes);
    }
  }

  lemma DeclaredAppend(a: seq<Container>, b: seq<Container>, volumes: seq<Volume>)
    requires AllMountsDeclared(a, volumes) && AllMountsDeclared(b, volumes)
    ensures AllMountsDeclared(a + b, volumes)
  {
  }

  lemma MoreVolumes(cs: seq<Container>, volumes: seq<Volume>, more: seq<Volume>)
    requires AllMountsDeclared(cs, volumes)
    ensures AllMountsDeclared(cs, volumes + more)
  {
    forall i, j | 0 <= i < |cs| && 0 <= j < |cs[i].volumeMounts|
      ensures Declares(volumes + more, cs[i].volumeMounts[j].name)
    {
      DeclaresAppend(volumes, more, cs[i].volumeMounts[j].name);
    }
  }

  /** Reference integrity: if the submitted mounts name the pod's volumes and the configured ones the
      configured volumes, every mount of the mutated pod names one of its volumes. */
  lemma ReferenceIntegrity(cfg: VSIConfig, pod: Pod)
    requires ContextFor(cfg, pod).Success?
    requires AllMountsDeclared(pod.initContainers, pod.volumes) && AllMountsDeclared(pod.containers, pod.volumes)
    requires ConfiguredMounts(cfg.injection.initContainers, cfg.injection.volumes)
    requires ConfiguredMounts(cfg.injection.containers, cfg.injection.volumes)
    requires Declares(pod.volumes, SECRETS_VOLUME) || Declares(cfg.injection.volumes, SECRETS_VOLUME)
    ensures var after := MutatedPod(cfg, pod, ContextFor(cfg, pod).value);
      AllMountsDeclared(after.initContainers, after.volumes) && AllMountsDeclared(after.containers, after.volumes)
  {
    var ctx := ContextFor(cfg, pod).value;
    var added := AddedVolumes(cfg.injection.volumes, pod.volumes);
    var volumes := pod.volumes + added;
    forall name | Declares(cfg.injection.volumes, name) || Declares(pod.volumes, name)
      ensures Declares(volumes, name)
    {
      StillDeclared(cfg.injection.volumes, pod.volumes, name);
    }
    FoundMountDeclared(pod.containers, pod.volumes, K8S_SA_MOUNT_PATH);
    FoundMountDeclared(pod.containers, pod.volumes, VaultSAMountPath(cfg, pod.annotations));
    MoreVolumes(pod.initContainers, pod.volumes, added);
    MoreVolumes(pod.containers, pod.volumes, added);
    IntegrityOf(cfg, pod, ctx, volumes);
  }

  lemma IntegrityOf(cfg: VSIConfig, pod: Pod, ctx: InjectionContext, volumes: seq<Volume>)
    requires forall name :: Declares(cfg.injection.volumes, name) ==> Declares(volumes, name)
    requires Declares(volumes, ctx.k8sSATokenVolume) && Declares(volumes, ctx.vaultSATokenVolume)
    requires Declares(volumes, SECRETS_VOLUME)
    requires AllMountsDeclared(pod.initContainers, volumes) && AllMountsDeclared(pod.containers, volumes)
    requires ConfiguredMounts(cfg.injection.initContainers, cfg.injection.volumes)
    requires ConfiguredMounts(cfg.injection.containers, cfg.injection.volumes)
    ensures AllMountsDeclared(MutatedPod(cfg, pod, ctx).initContainers, volumes)
    ensures AllMountsDeclared(MutatedPod(cfg, pod, ctx).containers, volumes)
  {
    InjectedMounts(cfg.injection.initContainers, PATH_INIT_CONTAINERS, pod.initContainers, ctx,
      cfg.injection.volumes, volumes);
    InjectedMounts(cfg.injection.containers, PATH_CONTAINERS, pod.containers, ctx, cfg.injection.volumes, volumes);
    OwnMounts(pod.initContainers, pod.initContainers, volumes);
    OwnMounts(pod.containers, OwnContainers(cfg, pod, ctx), volumes);
    DeclaredAppend(InjectedInits(cfg, pod, ctx), MapContainers(pod.initContainers, Mounted), volumes);
    DeclaredAppend(InjectedSidecars(cfg, pod, ctx), MapContainers(OwnContainers(cfg, pod, ctx), Mounted), volumes);
  }

  predicate DistinctNames(volumes: seq<Volume>) {
    forall i, j :: 0 <= i < j < |volumes| ==> volumes[i].name != volumes[j].name
  }

  lemma {:induction false} AddedDistinct(configured: seq<Volume>, podVolumes: seq<Volume>)
    requires DistinctNames(configured)
    ensures DistinctNames(AddedVolumes(configured, podVolumes))
  {
    if configured != [] {
      var n := |configured| - 1;
      var before := AddedVolumes(configured[..n], podVolumes);
      AddedDistinct(configured[..n], podVolumes);
      AddedDeclares(configured[..n], podVolumes, configured[n].name);
      assert !Declares(configured[..n], configured[n].name);
      assert forall i :: 0 <= i < |before| ==> before[i].name != configured[n].name;
    }
  }

  /** Volume names stay unique when the pod shares none with the configuration but secrets. */
  lemma VolumesUnique(cfg: VSIConfig, pod: Pod, ctx: InjectionContext)
    requires DistinctNames(pod.volumes) && DistinctNames(cfg.injection.volumes)
    requires forall name ::
      Declares(pod.volumes, name) && Declares(cfg.injection.volumes, name) ==> name == SECRETS_VOLUME
    ensures DistinctNames(MutatedPod(cfg, pod, ctx).volumes)
  {
    var added := AddedVolumes(cfg.injection.volumes, pod.volumes);
    AddedDistinct(cfg.injection.volumes, pod.volumes);
    forall i, j | 0 <= i < |pod.volumes| && 0 <= j < |added|
      ensures pod.volumes[i].name != added[j].name
    {
      AddedDeclares(cfg.injection.volumes, pod.volumes, added[j].name);
      assert Declares(pod.volumes, pod.volumes[i].name) && Declares(added, added[j].name);
    }
  }
}
