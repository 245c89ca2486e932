/** What the annotations, labels and mounts of a pod mean, in terms of the raw texts alone: which modes are
    asked for, what the computed context holds, and every reason to reject the pod. */
module Meaning {
  import opened Text
  import opened Manifest
  import opened Config
  import opened Modes
  import opened Secrets
  import opened PodUpdate

  /** The annotation's text, "" when it is absent. */
  function Raw(cfg: VSIConfig, a: map<string, string>, key: string): string {
    Lookup(a, if cfg.annotationKeyPrefix == "" then key else cfg.annotationKeyPrefix + "/" + key)
  }

  predicate SaysYes(text: string) {
    ToLower(text) in {"y", "yes", "true", "on"}
  }

  /* ---------- Modes ---------- */

  function RequestedModes(cfg: VSIConfig, a: map<string, string>): seq<string> {
    Split(Raw(cfg, a, "mode"), ",")
  }

  predicate SecretsRequested(cfg: VSIConfig, a: map<string, string>) {
    var r := RequestedModes(cfg, a);
    "secrets" in r || r == [""] || r == ["job"]
  }

  predicate JobRequested(cfg: VSIConfig, a: map<string, string>) {
    "job" in RequestedModes(cfg, a) || Raw(cfg, a, "workload") == "job"
  }

  predicate ProxyRequested(cfg: VSIConfig, a: map<string, string>) {
    "proxy" in RequestedModes(cfg, a)
  }

  /** The three statuses in terms of the annotations alone. */
  lemma ModesRequested(cfg: VSIConfig, a: map<string, string>)
    ensures var status := ModesStatusFor(cfg, a);
      && status.Keys == {"secrets", "proxy", "job"}
      && (status["secrets"] <==> SecretsRequested(cfg, a))
      && (status["job"] <==> JobRequested(cfg, a))
      && (status["proxy"] <==> ProxyRequested(cfg, a))
  {
    var r := RequestedModes(cfg, a);
    RegisteredDefault();
    ModeSelection(REGISTERED, r, SECRETS, SECRETS);
    assert |r| == 1 ==> r == [r[0]];
  }

  /** The policy: not in a system namespace, not injected yet, and asked for. */
  predicate ToMutate(cfg: VSIConfig, pod: Pod) {
    && pod.namespace !in {"kube-system", "kube-public"}
    && ToLower(Raw(cfg, pod.annotations, "status")) != "injected"
    && SaysYes(Raw(cfg, pod.annotations, "inject"))
  }

  lemma PolicyIs(cfg: VSIConfig, pod: Pod)
    ensures MutationRequired(cfg, pod) <==> ToMutate(cfg, pod)
  {
    assert |"default"| != |"kube-system"| && |"kube-public"| != |"default"|;
  }

  /** What is asked of secrets. */
  predicate StaticSecrets(cfg: VSIConfig, a: map<string, string>) {
    SecretsRequested(cfg, a) && ToLower(Raw(cfg, a, "secrets-type")) == "static"
  }

  predicate EnvSecrets(cfg: VSIConfig, a: map<string, string>) {
    SecretsRequested(cfg, a) && ToLower(Raw(cfg, a, "secrets-injection-method")) == "env"
  }

  /* ---------- Mounts ---------- */

  predicate MountsAt(c: Container, j: int, mountPath: string) {
    0 <= j < |c.volumeMounts| && c.volumeMounts[j].mountPath == mountPath
  }

  /** Mount j of container i is the first at the path, over all containers in order. */
  ghost predicate FirstMount(cs: seq<Container>, mountPath: string, i: int, j: int) {
    && 0 <= i < |cs| && MountsAt(cs[i], j, mountPath)
    && (forall l :: 0 <= l < j ==> !MountsAt(cs[i], l, mountPath))
    && (forall k, l :: 0 <= k < i ==> !MountsAt(cs[k], l, mountPath))
  }

  ghost predicate NoMount(cs: seq<Container>, mountPath: string) {
    forall k, l :: 0 <= k < |cs| ==> !MountsAt(cs[k], l, mountPath)
  }

  lemma {:induction false} FindInMounts(mounts: seq<VolumeMount>, rest: seq<VolumeMount>, mountPath: string)
    returns (j: nat)
    ensures j <= |mounts| && forall l :: 0 <= l < j ==> mounts[l].mountPath != mountPath
    ensures j < |mounts| ==>
      mounts[j].mountPath == mountPath && MountNameAt(mounts + rest, mountPath) == mounts[j].name
    ensures j == |mounts| ==> MountNameAt(mounts + rest, mountPath) == MountNameAt(rest, mountPath)
  {
    if mounts == [] {
      j := 0;
      assert mounts + rest == rest;
    } else {
      assert (mounts + rest)[1..] == mounts[1..] + rest && (mounts + rest)[0] == mounts[0];
      if mounts[0].mountPath == mountPath {
        j := 0;
      } else {
        var l := FindInMounts(mounts[1..], rest, mountPath);
        assert forall m :: 0 < m <= l && m < |mounts| ==> mounts[m] == mounts[1..][m - 1];
        j := l + 1;
      }
    }
  }

  /** The volume found at a path is the one of the first mount there; there is none without such a mount. */
  lemma {:induction false} FirstMountFound(cs: seq<Container>, mountPath: string) returns (i: int, j: int)
    ensures NoMount(cs, mountPath) || FirstMount(cs, mountPath, i, j)
    ensures NoMount(cs, mountPath) ==> MountNameAt(AllMounts(cs), mountPath) == ""
    ensures FirstMount(cs, mountPath, i, j) ==>
      MountNameAt(AllMounts(cs), mountPath) == cs[i].volumeMounts[j].name
  {
    i, j := 0, 0;
    if cs != [] {
      j := FindInMounts(cs[0].volumeMounts, AllMounts(cs[1..]), mountPath);
      if j < |cs[0].volumeMounts| {
        assert FirstMount(cs, mountPath, 0, j);
      } else {
        assert forall l :: !MountsAt(cs[0], l, mountPath);
        var k;
        k, j := FirstMountFound(cs[1..], mountPath);
        i := k + 1;
        LaterMount(cs, mountPath, k, j);
      }
    }
  }

  lemma LaterMount(cs: seq<Container>, mountPath: string, k: int, j: int)
    requires cs != [] && forall l :: !MountsAt(cs[0], l, mountPath)
    ensures NoMount(cs[1..], mountPath) ==> NoMount(cs, mountPath)
    ensures FirstMount(cs[1..], mountPath, k, j) ==> FirstMount(cs, mountPath, k + 1, j)
    ensures NoMount(cs, mountPath) ==> NoMount(cs[1..], mountPath)
  {
    assert forall m :: 0 < m < |cs| ==> cs[m] == cs[1..][m - 1];
    assert forall m :: 0 <= m < |cs[1..]| ==> cs[1..][m] == cs[m + 1];
  }

  lemma FirstUnique(cs: seq<Container>, mountPath: string, i: int, j: int, k: int, l: int)
    requires FirstMount(cs, mountPath, i, j) && FirstMount(cs, mountPath, k, l)
    ensures i == k && j == l
  {
    assert !(i < k) && !(k < i);
  }

  /** No container mounts a volume at the path, or the first that does leaves its name empty. */
  ghost predicate NoVolume(cs: seq<Container>, mountPath: string) {
    forall i, j :: FirstMount(cs, mountPath, i, j) ==> cs[i].volumeMounts[j].name == ""
  }

  lemma NoVolumeIs(cs: seq<Container>, mountPath: string)
    ensures NoVolume(cs, mountPath) <==> MountNameAt(AllMounts(cs), mountPath) == ""
  {
    var i, j := FirstMountFound(cs, mountPath);
    if FirstMount(cs, mountPath, i, j) {
      forall k, l | FirstMount(cs, mountPath, k, l) {
        FirstUnique(cs, mountPath, i, j, k, l);
      }
    }
  }

  /** The mount path of the token to authenticate with: the default one, or the annotation's text without a
      final "/token". */
  ghost predicate TokenPath(text: string, mountPath: string) {
    if text == "" then mountPath == "/var/run/secrets/kubernetes.io/serviceaccount"
    else text == mountPath + "/token" || (text == mountPath && !(exists p :: text == p + "/token"))
  }

  lemma TokenPathIs(cfg: VSIConfig, a: map<string, string>, mountPath: string)
    ensures TokenPath(Raw(cfg, a, "sa-token"), mountPath) <==> mountPath == VaultSAMountPath(cfg, a)
  {
    var text := Raw(cfg, a, "sa-token");
    TrimSuffixIs(mountPath, "/token");
    TrimSuffixIs(text, "/token");
    if p :| text == p + "/token" {
      TrimSuffixIs(p, "/token");
      assert |p + "/token"| == |p| + 6;
    }
  }

  predicate FirstSecretsMount(c: Container, j: int) {
    && 0 <= j < |c.volumeMounts| && c.volumeMounts[j].name == "secrets"
    && forall l :: 0 <= l < j ==> c.volumeMounts[l].name != "secrets"
  }

  /** The path of the container's first mount of the secrets volume, "" when it has none. */
  predicate SecretsPath(c: Container, path: string) {
    if exists j :: 0 <= j < |c.volumeMounts| && c.volumeMounts[j].name == "secrets"
    then exists j :: 0 <= j < |c.volumeMounts| && FirstSecretsMount(c, j) && c.volumeMounts[j].mountPath == path
    else path == ""
  }

  lemma {:induction false} SecretsPathIs(mounts: seq<VolumeMount>) returns (j: nat)
    ensures j <= |mounts| && forall l :: 0 <= l < j ==> mounts[l].name != "secrets"
    ensures j < |mounts| ==> mounts[j].name == "secrets" && SecretsMountPath(mounts) == mounts[j].mountPath
    ensures j == |mounts| ==> SecretsMountPath(mounts) == ""
  {
    if mounts == [] || mounts[0].name == "secrets" {
      j := 0;
    } else {
      var l := SecretsPathIs(mounts[1..]);
      assert forall m :: 0 < m <= l && m < |mounts| ==> mounts[m] == mounts[1..][m - 1];
      j := l + 1;
    }
  }

  lemma SecretsPathFound(c: Container)
    ensures forall path :: SecretsPath(c, path) <==> path == SecretsMountPath(c.volumeMounts)
  {
    var j := SecretsPathIs(c.volumeMounts);
    if j < |c.volumeMounts| {
      assert FirstSecretsMount(c, j);
      assert forall k :: FirstSecretsMount(c, k) ==> k == j;
    }
  }

  /* ---------- The context ---------- */

  /** The method to authenticate with: the annotation's, lower-cased, or "kubernetes" when none is given. */
  function GivenAuth(cfg: VSIConfig, pod: Pod): string {
    var auth := ToLower(Raw(cfg, pod.annotations, "auth"));
    if auth == "" then "kubernetes" else auth
  }

  /** The role: the annotation's when there is one, else with Kubernetes the application label, else none. */
  function GivenRole(cfg: VSIConfig, pod: Pod): string {
    var role := Raw(cfg, pod.annotations, "role");
    if role != "" then role
    else if GivenAuth(cfg, pod) == "kubernetes" then Lookup(pod.labels, cfg.applicationLabelKey)
    else ""
  }

  /** Authentication method, role and image of the context. */
  lemma ContextGiven(cfg: VSIConfig, pod: Pod)
    requires ContextFor(cfg, pod).Success?
    ensures var ctx := ContextFor(cfg, pod).value;
      && ctx.authMethod == GivenAuth(cfg, pod) && ctx.authMethod in {"kubernetes", "approle"}
      && ctx.role == GivenRole(cfg, pod)
      && ctx.vaultImage == Raw(cfg, pod.annotations, "vault-image")
  {
  }

  /** The first mount at the path names the volume. */
  ghost predicate NamedByFirst(cs: seq<Container>, mountPath: string, volume: string) {
    exists i, j :: FirstMount(cs, mountPath, i, j) && cs[i].volumeMounts[j].name == volume
  }

  /** The volumes are those of the pod's first mounts at the default path and at the token's. */
  lemma ContextVolumes(cfg: VSIConfig, pod: Pod, tokenPath: string)
    requires ContextFor(cfg, pod).Success? && TokenPath(Raw(cfg, pod.annotations, "sa-token"), tokenPath)
    ensures NamedByFirst(
      pod.containers, "/var/run/secrets/kubernetes.io/serviceaccount", ContextFor(cfg, pod).value.k8sSATokenVolume)
    ensures NamedByFirst(pod.containers, tokenPath, ContextFor(cfg, pod).value.vaultSATokenVolume)
    ensures ContextFor(cfg, pod).value.k8sSATokenVolume != "" && ContextFor(cfg, pod).value.vaultSATokenVolume != ""
  {
    TokenPathIs(cfg, pod.annotations, tokenPath);
    var i, j := FirstMountFound(pod.containers, K8S_SA_MOUNT_PATH);
    var k, l := FirstMountFound(pod.containers, tokenPath);
  }

  /* ---------- Reasons to reject a pod ---------- */

  /** The first container without an explicit command bears the name. */
  predicate FirstCommandless(cs: seq<Container>, name: string) {
    exists k :: 0 <= k < |cs| && cs[k].command.None? && cs[k].name == name
                && forall l :: 0 <= l < k ==> cs[l].command.Some?
  }

  /** Why the secrets annotations are refused. */
  ghost predicate SecretsReason(cfg: VSIConfig, labels: map<string, string>, a: map<string, string>, e: Error) {
    var secretsType, how := ToLower(Raw(cfg, a, "secrets-type")), ToLower(Raw(cfg, a, "secrets-injection-method"));
    var paths := Split(Raw(cfg, a, "secrets-path"), ",");
    var templates := Split(Raw(cfg, a, "secrets-template"), "---");
    var destinations := Split(Raw(cfg, a, "secrets-destination"), ",");
    match e
    case UnsupportedSecretsType(t) => t == secretsType && secretsType !in {"", "dynamic", "static"}
    case UnsupportedInjectionMethod(m) => m == how && how !in {"", "file", "env"}
    case DynamicWithEnv => secretsType in {"", "dynamic"} && how == "env"
    case StaticWithAppRole => secretsType == "static" && Raw(cfg, a, "auth") == "approle"
    case MissingSecretsLabels =>
      Raw(cfg, a, "secrets-path") == ""
      && (Lookup(labels, cfg.applicationLabelKey) == "" || Lookup(labels, cfg.applicationServiceLabelKey) == "")
    case PathDestinationMismatch => Raw(cfg, a, "secrets-template") == "" && |paths| != |destinations|
    case TemplateDestinationMismatch => Raw(cfg, a, "secrets-template") != "" && |templates| != |destinations|
    case _ => false
  }

  /** A reason to reject a pod that is to be mutated, for each error. */
  ghost predicate Reason(cfg: VSIConfig, pod: Pod, e: Error) {
    var a := pod.annotations;
    var auth := ToLower(Raw(cfg, a, "auth"));
    var hooks := SecretsRequested(cfg, a) && !StaticSecrets(cfg, a) && SaysYes(Raw(cfg, a, "secrets-hook"));
    match e
    case MalformedPod => false
    case NoContainer => pod.containers == []
    case UnsupportedAuthMethod(m) => m == auth && auth !in {"", "kubernetes", "approle"}
    case MissingApplicationLabel =>
      auth in {"", "kubernetes"} && Raw(cfg, a, "role") == "" && Lookup(pod.labels, cfg.applicationLabelKey) == ""
    case MissingMount(path) =>
      NoVolume(pod.containers, path)
      && (path == "/var/run/secrets/kubernetes.io/serviceaccount" || TokenPath(Raw(cfg, a, "sa-token"), path))
    case HookWithJob => hooks && JobRequested(cfg, a)
    case UnsupportedHook => hooks && cfg.postStart.Some? && cfg.postStart.value.exec.None?
    case NoExplicitCommand(name) =>
      StaticSecrets(cfg, a) && EnvSecrets(cfg, a) && FirstCommandless(pod.containers, name)
    case JobContainerCount => JobRequested(cfg, a) && cfg.injection.containers != [] && |pod.containers| != 1
    case _ => SecretsRequested(cfg, a) && SecretsReason(cfg, pod.labels, a, e)
  }

  /** The order in which the reasons are looked for. */
  function Rank(e: Error): nat {
    match e
    case MalformedPod => 0
    case NoContainer => 1
    case UnsupportedAuthMethod(_) => 2
    case MissingApplicationLabel => 3
    case MissingMount(path) => if path == "/var/run/secrets/kubernetes.io/serviceaccount" then 4 else 5
    case UnsupportedSecretsType(_) => 6
    case UnsupportedInjectionMethod(_) => 7
    case DynamicWithEnv => 8
    case StaticWithAppRole => 9
    case MissingSecretsLabels => 10
    case PathDestinationMismatch => 11
    case TemplateDestinationMismatch => 11
    case HookWithJob => 12
    case UnsupportedHook => 13
    case NoExplicitCommand(_) => 14
    case JobContainerCount => 15
  }

  /** No reason is found before the given rank. */
  ghost predicate NoneBefore(cfg: VSIConfig, pod: Pod, rank: nat) {
    forall e :: Reason(cfg, pod, e) ==> rank <= Rank(e)
  }

  /** The checks of the secrets annotations find the first reason, if there is one. */
  lemma SecretsErrorFirst(cfg: VSIConfig, labels: map<string, string>, a: map<string, string>)
    ensures match SecretsError(cfg, labels, a)
      case None => forall e :: !SecretsReason(cfg, labels, a, e)
      case Some(e) =>
        && SecretsReason(cfg, labels, a, e)
        && forall other :: SecretsReason(cfg, labels, a, other) ==> Rank(e) <= Rank(other)
  {
    KindReasons(cfg, labels, a);
    EntryReasons(cfg, labels, a);
  }

  lemma KindReasons(cfg: VSIConfig, labels: map<string, string>, a: map<string, string>)
    ensures match KindError(cfg, a)
      case None => forall e :: SecretsReason(cfg, labels, a, e) ==> Rank(e) >= 10
      case Some(e) =>
        && SecretsReason(cfg, labels, a, e)
        && forall other :: SecretsReason(cfg, labels, a, other) ==> Rank(e) <= Rank(other)
  {
  }

  lemma EntryReasons(cfg: VSIConfig, labels: map<string, string>, a: map<string, string>)
    ensures MissingLabels(cfg, labels, a) <==> SecretsReason(cfg, labels, a, MissingSecretsLabels)
    ensures CountMismatch(cfg, labels, a) <==>
      || SecretsReason(cfg, labels, a, PathDestinationMismatch)
      || SecretsReason(cfg, labels, a, TemplateDestinationMismatch)
    ensures CustomTemplates(cfg, a) <==> Raw(cfg, a, "secrets-template") != ""
  {
    EmptyEntry(Raw(cfg, a, "secrets-path"), ",");
    EmptyEntry(Raw(cfg, a, "secrets-template"), "---");
    EmptyEntry(Raw(cfg, a, "secrets-destination"), ",");
  }

  lemma {:induction false} FirstCommandlessFound(cs: seq<Container>)
    ensures match FirstWithoutCommand(cs)
      case None => forall k :: 0 <= k < |cs| ==> cs[k].command.Some?
      case Some(c) => forall name :: FirstCommandless(cs, name) <==> name == c.name
  {
    if cs != [] {
      FirstCommandlessFound(cs[1..]);
      if cs[0].command.None? {
        assert FirstCommandless(cs, cs[0].name);
      } else {
        forall name
          ensures FirstCommandless(cs, name) <==> FirstCommandless(cs[1..], name)
        {
          CommandlessLater(cs, name);
        }
      }
    }
  }

  lemma CommandlessLater(cs: seq<Container>, name: string)
    requires cs != [] && cs[0].command.Some?
    ensures FirstCommandless(cs, name) <==> FirstCommandless(cs[1..], name)
  {
    if k :| 0 <= k < |cs| && cs[k].command.None? && cs[k].name == name
            && forall l :: 0 <= l < k ==> cs[l].command.Some? {
      assert cs[1..][k - 1] == cs[k];
    }
    if k :| 0 <= k < |cs[1..]| && cs[1..][k].command.None? && cs[1..][k].name == name
            && forall l :: 0 <= l < k ==> cs[1..][l].command.Some? {
      assert cs[k + 1] == cs[1..][k];
      assert forall l :: 0 < l < k + 1 ==> cs[l] == cs[1..][l - 1];
    }
  }

  /** The first check of the context: the authentication method. */
  lemma AuthReason(cfg: VSIConfig, pod: Pod)
    requires pod.containers != []
    ensures NoneBefore(cfg, pod, 2)
    ensures var auth := AuthMethod(cfg, pod.annotations);
      if auth !in {AUTH_KUBERNETES, AUTH_APPROLE} then Reason(cfg, pod, UnsupportedAuthMethod(auth))
      else NoneBefore(cfg, pod, 3)
  {
  }

  /** The second: the role. */
  lemma RoleReason(cfg: VSIConfig, pod: Pod)
    requires NoneBefore(cfg, pod, 3)
    ensures if Role(cfg, pod.labels, pod.annotations) == "" && AuthMethod(cfg, pod.annotations) == AUTH_KUBERNETES
            then Reason(cfg, pod, MissingApplicationLabel) else NoneBefore(cfg, pod, 4)
  {
  }

  lemma MountReason(cfg: VSIConfig, pod: Pod, path: string)
    ensures Reason(cfg, pod, MissingMount(path)) <==>
      path in {K8S_SA_MOUNT_PATH, VaultSAMountPath(cfg, pod.annotations)}
      && MountNameAt(AllMounts(pod.containers), path) == ""
  {
    TokenPathIs(cfg, pod.annotations, path);
    NoVolumeIs(pod.containers, path);
  }

  lemma MountReasons(cfg: VSIConfig, pod: Pod)
    requires NoneBefore(cfg, pod, 4)
    ensures var token := VaultSAMountPath(cfg, pod.annotations);
      if MountNameAt(AllMounts(pod.containers), K8S_SA_MOUNT_PATH) == "" then
        Reason(cfg, pod, MissingMount(K8S_SA_MOUNT_PATH))
      else if MountNameAt(AllMounts(pod.containers), token) == "" then
        Reason(cfg, pod, MissingMount(token)) && NoneBefore(cfg, pod, Rank(MissingMount(token)))
      else NoneBefore(cfg, pod, 6)
  {
    var token := VaultSAMountPath(cfg, pod.annotations);
    MountReason(cfg, pod, K8S_SA_MOUNT_PATH);
    MountReason(cfg, pod, token);
    if MountNameAt(AllMounts(pod.containers), K8S_SA_MOUNT_PATH) != "" {
      forall e | Reason(cfg, pod, e)
        ensures 5 <= Rank(e) && (MountNameAt(AllMounts(pod.containers), token) != "" ==> 6 <= Rank(e))
      {
        if e.MissingMount? {
          MountReason(cfg, pod, e.mountPath);
        }
      }
    }
  }

  lemma SecretsReasons(cfg: VSIConfig, pod: Pod)
    requires NoneBefore(cfg, pod, 6)
    ensures var error := SecretsError(cfg, pod.labels, pod.annotations);
      if SecretsRequested(cfg, pod.annotations) && error.Some? then
        Reason(cfg, pod, error.value) && NoneBefore(cfg, pod, Rank(error.value))
      else NoneBefore(cfg, pod, 12)
  {
    SecretsErrorFirst(cfg, pod.labels, pod.annotations);
    var error := SecretsError(cfg, pod.labels, pod.annotations);
    forall e | Reason(cfg, pod, e) && Rank(e) < 12
      ensures SecretsRequested(cfg, pod.annotations) && SecretsReason(cfg, pod.labels, pod.annotations, e)
    {
    }
  }

  /** The first failing check of the context, if there is one. */
  function ContextError(cfg: VSIConfig, pod: Pod): Option<Error> {
    var auth := AuthMethod(cfg, pod.annotations);
    var token := VaultSAMountPath(cfg, pod.annotations);
    if auth !in {AUTH_KUBERNETES, AUTH_APPROLE} then Some(UnsupportedAuthMethod(auth))
    else if Role(cfg, pod.labels, pod.annotations) == "" && auth == AUTH_KUBERNETES then Some(MissingApplicationLabel)
    else if MountNameAt(AllMounts(pod.containers), K8S_SA_MOUNT_PATH) == "" then Some(MissingMount(K8S_SA_MOUNT_PATH))
    else if MountNameAt(AllMounts(pod.containers), token) == "" then Some(MissingMount(token))
    else if SecretsRequested(cfg, pod.annotations) then SecretsError(cfg, pod.labels, pod.annotations)
    else None
  }

  lemma ContextErrorIs(cfg: VSIConfig, pod: Pod)
    ensures match ContextFor(cfg, pod)
      case Failure(e) => ContextError(cfg, pod) == Some(e)
      case Success(_) => ContextError(cfg, pod) == None
  {
    ModesRequested(cfg, pod.annotations);
  }

  lemma ContextErrorIsFirst(cfg: VSIConfig, pod: Pod)
    requires pod.containers != []
    ensures match ContextError(cfg, pod)
      case Some(e) => Reason(cfg, pod, e) && NoneBefore(cfg, pod, Rank(e))
      case None => NoneBefore(cfg, pod, 12)
  {
    AuthReason(cfg, pod);
    if NoneBefore(cfg, pod, 3) {
      RoleReason(cfg, pod);
      if NoneBefore(cfg, pod, 4) {
        MountReasons(cfg, pod);
        if NoneBefore(cfg, pod, 6) {
          SecretsReasons(cfg, pod);
        }
      }
    }
  }

  /** An error in computing the context is the first reason; without one there is none before rank 12. */
  lemma ContextErrorFirst(cfg: VSIConfig, pod: Pod)
    requires pod.containers != []
    ensures match ContextFor(cfg, pod)
      case Failure(e) => Reason(cfg, pod, e) && NoneBefore(cfg, pod, Rank(e))
      case Success(_) => NoneBefore(cfg, pod, 12)
  {
    ContextErrorIs(cfg, pod);
    ContextErrorIsFirst(cfg, pod);
  }

  /** What a computed context says about the annotations. */
  lemma ContextFacts(cfg: VSIConfig, pod: Pod)
    requires ContextFor(cfg, pod).Success?
    ensures var ctx, a := ContextFor(cfg, pod).value, pod.annotations;
      && ValidContext(ctx)
      && ctx.modesStatus == ModesStatusFor(cfg, a)
      && (Enabled(ctx, SECRETS) <==> SecretsRequested(cfg, a))
      && (Enabled(ctx, JOB) <==> JobRequested(cfg, a))
      && (Enabled(ctx, PROXY) <==> ProxyRequested(cfg, a))
      && (IsSecretsStatic(ctx) <==> StaticSecrets(cfg, a))
      && (IsSecretsInjectionEnv(ctx) <==> EnvSecrets(cfg, a))
  {
    ModesRequested(cfg, pod.annotations);
    ContextValid(cfg, pod);
  }

  /** The patch of the pod's own containers fails for the first reason of ranks 12 to 14. */
  lemma OwnErrorFirst(cfg: VSIConfig, pod: Pod)
    requires ContextFor(cfg, pod).Success? && NoneBefore(cfg, pod, 12)
    ensures match OwnContainersPatch(cfg, pod, ContextFor(cfg, pod).value)
      case Failure(e) => Reason(cfg, pod, e) && NoneBefore(cfg, pod, Rank(e))
      case Success(_) => NoneBefore(cfg, pod, 15)
  {
    ContextFacts(cfg, pod);
    OwnErrorIs(cfg, pod, ContextFor(cfg, pod).value);
    OwnErrorIsFirst(cfg, pod);
  }

  /** The first failing check of the own containers' patch, if there is one. */
  function OwnError(cfg: VSIConfig, pod: Pod): Option<Error> {
    var a := pod.annotations;
    if !SecretsRequested(cfg, a) then None
    else if StaticSecrets(cfg, a) then
      if !EnvSecrets(cfg, a) then None
      else match FirstWithoutCommand(pod.containers) case Some(c) => Some(NoExplicitCommand(c.name)) case None => None
    else if !SaysYes(Raw(cfg, a, "secrets-hook")) then None
    else if JobRequested(cfg, a) then Some(HookWithJob)
    else if cfg.postStart.Some? && cfg.postStart.value.exec.None? then Some(UnsupportedHook)
    else None
  }

  lemma OwnErrorIs(cfg: VSIConfig, pod: Pod, ctx: InjectionContext)
    requires Enabled(ctx, SECRETS) <==> SecretsRequested(cfg, pod.annotations)
    requires Enabled(ctx, JOB) <==> JobRequested(cfg, pod.annotations)
    requires IsSecretsStatic(ctx) <==> StaticSecrets(cfg, pod.annotations)
    requires IsSecretsInjectionEnv(ctx) <==> EnvSecrets(cfg, pod.annotations)
    ensures match OwnContainersPatch(cfg, pod, ctx)
      case Failure(e) => OwnError(cfg, pod) == Some(e)
      case Success(_) => OwnError(cfg, pod) == None
  {
  }

  lemma OwnErrorIsFirst(cfg: VSIConfig, pod: Pod)
    requires NoneBefore(cfg, pod, 12)
    ensures match OwnError(cfg, pod)
      case Some(e) => Reason(cfg, pod, e) && NoneBefore(cfg, pod, Rank(e))
      case None => NoneBefore(cfg, pod, 15)
  {
    FirstCommandlessFound(pod.containers);
  }

  /** The pod's patch fails for the first of the reasons, and only for a reason. */
  lemma ErrorFirst(cfg: VSIConfig, pod: Pod)
    ensures match PodPatch(cfg, pod)
      case Failure(e) => Reason(cfg, pod, e) && NoneBefore(cfg, pod, Rank(e))
      case Success(_) => NoneBefore(cfg, pod, 16)
  {
    if pod.containers == [] {
      NoContainerFirst(cfg, pod);
    } else {
      ContextErrorFirst(cfg, pod);
      if ContextFor(cfg, pod).Success? {
        ContextFacts(cfg, pod);
        OwnErrorFirst(cfg, pod);
        if OwnContainersPatch(cfg, pod, ContextFor(cfg, pod).value).Success? {
          CountReason(cfg, pod, ContextFor(cfg, pod).value);
        }
      }
    }
  }

  lemma NoContainerFirst(cfg: VSIConfig, pod: Pod)
    requires pod.containers == []
    ensures Reason(cfg, pod, NoContainer) && NoneBefore(cfg, pod, Rank(NoContainer))
  {
  }

  lemma CountReason(cfg: VSIConfig, pod: Pod, ctx: InjectionContext)
    requires NoneBefore(cfg, pod, 15) && (Enabled(ctx, JOB) <==> JobRequested(cfg, pod.annotations))
    ensures if JobCountError(cfg.injection.containers, PATH_CONTAINERS, pod.containers, ctx)
            then Reason(cfg, pod, JobContainerCount) else NoneBefore(cfg, pod, 16)
  {
  }
}
