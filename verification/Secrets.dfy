/** The secrets mode: computing its configuration from annotations, choosing its containers and patching
    the submitted pod's own containers. */
module Secrets {
  import opened Text
  import opened JsonPatch
  import opened Manifest
  import opened Config
  import opened Templates
  import opened GoPath

  const DEFAULT_DESTINATION := "secrets.properties"
  const DEFAULT_ENGINE_PATH := "secret"
  const SEPARATOR := ","
  const TEMPLATE_SEPARATOR := "---"
  const MOUNT_PATH_TAG := "<VSI_SECRETS_VOL_MOUNTPATH>"
  const ENV_PROCESS := "vaultinjector-env"

  /* ---------- secretsModeCompute ---------- */

  type Annotations = map<string, string>

  function SecretsType(cfg: VSIConfig, a: Annotations): string {
    var t := ToLower(Annotation(cfg, a, SECRETS_TYPE_KEY));
    if t == "" then DYNAMIC else t
  }

  function InjectionMethod(cfg: VSIConfig, a: Annotations): string {
    var m := ToLower(Annotation(cfg, a, SECRETS_METHOD_KEY));
    if m == "" then METHOD_FILE else m
  }

  function Entries(cfg: VSIConfig, a: Annotations, key: string, sep: string): seq<string>
    requires sep != ""
  {
    Split(Annotation(cfg, a, key), sep)
  }

  function Destinations(cfg: VSIConfig, a: Annotations): seq<string> {
    var d := Entries(cfg, a, SECRETS_DESTINATION_KEY, SEPARATOR);
    if d == [""] then [DEFAULT_DESTINATION] else d
  }

  function DefaultPath(cfg: VSIConfig, labels: map<string, string>): string {
    DEFAULT_ENGINE_PATH + "/" + Lookup(labels, cfg.applicationLabelKey)
    + "/" + Lookup(labels, cfg.applicationServiceLabelKey)
  }

  function SecretsPaths(cfg: VSIConfig, labels: map<string, string>, a: Annotations): seq<string> {
    var p := Entries(cfg, a, SECRETS_PATH_KEY, SEPARATOR);
    if p == [""] then [DefaultPath(cfg, labels)] else p
  }

  predicate CustomTemplates(cfg: VSIConfig, a: Annotations) {
    Entries(cfg, a, SECRETS_TEMPLATE_KEY, TEMPLATE_SEPARATOR) != [""]
  }

  /** Why the annotations are refused, if they are: the checks of the computation, as one set. */
  predicate MissingLabels(cfg: VSIConfig, labels: map<string, string>, a: Annotations) {
    && Entries(cfg, a, SECRETS_PATH_KEY, SEPARATOR) == [""]
    && (Lookup(labels, cfg.applicationLabelKey) == "" || Lookup(labels, cfg.applicationServiceLabelKey) == "")
  }

  predicate CountMismatch(cfg: VSIConfig, labels: map<string, string>, a: Annotations) {
    |Destinations(cfg, a)| !=
      if CustomTemplates(cfg, a) then |Entries(cfg, a, SECRETS_TEMPLATE_KEY, TEMPLATE_SEPARATOR)|
      else |SecretsPaths(cfg, labels, a)|
  }

  predicate RefusedSecrets(cfg: VSIConfig, labels: map<string, string>, a: Annotations) {
    var t, m := SecretsType(cfg, a), InjectionMethod(cfg, a);
    || t !in {DYNAMIC, STATIC}
    || m !in {METHOD_FILE, METHOD_ENV}
    || (t == DYNAMIC && m == METHOD_ENV)
    || (t == STATIC && Annotation(cfg, a, AUTH_KEY) == AUTH_APPROLE)
    || MissingLabels(cfg, labels, a)
    || CountMismatch(cfg, labels, a)
  }

  function KindError(cfg: VSIConfig, a: Annotations): Option<Error> {
    var t, m := SecretsType(cfg, a), InjectionMethod(cfg, a);
    if t !in {DYNAMIC, STATIC} then Some(UnsupportedSecretsType(t))
    else if m !in {METHOD_FILE, METHOD_ENV} then Some(UnsupportedInjectionMethod(m))
    else if t == DYNAMIC && m == METHOD_ENV then Some(DynamicWithEnv)
    else if t == STATIC && Annotation(cfg, a, AUTH_KEY) == AUTH_APPROLE then Some(StaticWithAppRole)
    else None
  }

  /** The first check that fails, in the program's order. */
  function SecretsError(cfg: VSIConfig, labels: map<string, string>, a: Annotations): (e: Option<Error>)
    ensures e.Some? <==> RefusedSecrets(cfg, labels, a)
  {
    if KindError(cfg, a).Some? then KindError(cfg, a)
    else if MissingLabels(cfg, labels, a) then Some(MissingSecretsLabels)
    else if CountMismatch(cfg, labels, a) then
      Some(if CustomTemplates(cfg, a) then TemplateDestinationMismatch else PathDestinationMismatch)
    else None
  }

  /** Destination i with its template, path and command. */
  function BlockValues(cfg: VSIConfig, labels: map<string, string>, a: Annotations, i: nat): Values
    requires !CountMismatch(cfg, labels, a) && i < |Destinations(cfg, a)|
  {
    var custom := CustomTemplates(cfg, a);
    var commands := Entries(cfg, a, NOTIFY_KEY, SEPARATOR);
    Values(
      Destinations(cfg, a)[i],
      if custom then Entries(cfg, a, SECRETS_TEMPLATE_KEY, TEMPLATE_SEPARATOR)[i] else cfg.templateDefaultTmpl,
      if custom then "" else SecretsPaths(cfg, labels, a)[i],
      if i < |commands| then commands[i] else "")
  }

  /** What each block is filled with, in the order of the destinations. */
  function AllValues(cfg: VSIConfig, labels: map<string, string>, a: Annotations): seq<Values>
    requires !CountMismatch(cfg, labels, a)
  {
    seq(|Destinations(cfg, a)|, i requires 0 <= i < |Destinations(cfg, a)| => BlockValues(cfg, labels, a, i))
  }

  /** The rendered blocks, one line break after each. */
  function Blocks(block: string, vs: seq<Values>): string {
    if vs == [] then ""
    else
      var n := |vs| - 1;
      Blocks(block, vs[..n]) + Render(block, vs[n]) + "\n"
  }

  function SecretsConfig(cfg: VSIConfig, labels: map<string, string>, a: Annotations): Result<ModeConfig> {
    match SecretsError(cfg, labels, a)
    case Some(e) => Failure(e)
    case None =>
      Success(SecretsModeConfig(
        SecretsType(cfg, a), InjectionMethod(cfg, a), Blocks(cfg.templateBlock, AllValues(cfg, labels, a))))
  }

  method Supported(value: string, values: seq<string>) returns (found: bool)
    ensures found <==> value in values
  {
    found := false;
    for i := 0 to |values|
      invariant !found && value !in values[..i]
    {
      if value == values[i] {
        found := true;
        break;
      }
    }
  }

  /** The type, method and authentication checks. */
  method CheckSecretsKind(cfg: VSIConfig, a: Annotations)
    returns (e: Option<Error>, secretsType: string, injectionMethod: string)
    ensures e == KindError(cfg, a)
    ensures e.None? ==> secretsType == SecretsType(cfg, a) && injectionMethod == InjectionMethod(cfg, a)
  {
    secretsType := ToLower(Annotation(cfg, a, SECRETS_TYPE_KEY));
    injectionMethod := ToLower(Annotation(cfg, a, SECRETS_METHOD_KEY));
    if secretsType == "" {
      secretsType := DYNAMIC;
    } else {
      var supported := Supported(secretsType, [DYNAMIC, STATIC]);
      if !supported {
        return Some(UnsupportedSecretsType(secretsType)), secretsType, injectionMethod;
      }
    }
    if injectionMethod == "" {
      injectionMethod := METHOD_FILE;
    } else {
      var supported := Supported(injectionMethod, [METHOD_FILE, METHOD_ENV]);
      if !supported {
        return Some(UnsupportedInjectionMethod(injectionMethod)), secretsType, injectionMethod;
      }
    }
    if secretsType == DYNAMIC && injectionMethod == METHOD_ENV {
      return Some(DynamicWithEnv), secretsType, injectionMethod;
    }
    if secretsType == STATIC && Annotation(cfg, a, AUTH_KEY) == AUTH_APPROLE {
      return Some(StaticWithAppRole), secretsType, injectionMethod;
    }
    e := None;
  }

  /** Checks the annotations, pairs destinations with templates, paths and commands, and renders one
      block per destination. */
  method SecretsModeCompute(cfg: VSIConfig, labels: map<string, string>, a: Annotations) returns (r: Result<ModeConfig>)
    ensures r == SecretsConfig(cfg, labels, a)
    ensures r.Success? <==> !RefusedSecrets(cfg, labels, a)
  {
    var e, secretsType, injectionMethod := CheckSecretsKind(cfg, a);
    if e.Some? {
      return Failure(e.value);
    }
    var secretsPath := Split(Annotation(cfg, a, SECRETS_PATH_KEY), SEPARATOR);
    if |secretsPath| == 1 && secretsPath[0] == "" {
      assert secretsPath == [""];
      var applicationLabel := Lookup(labels, cfg.applicationLabelKey);
      var serviceLabel := Lookup(labels, cfg.applicationServiceLabelKey);
      if applicationLabel == "" || serviceLabel == "" {
        return Failure(MissingSecretsLabels);
      }
      secretsPath := secretsPath[0 := DEFAULT_ENGINE_PATH + "/" + applicationLabel + "/" + serviceLabel];
    }
    var paired := RenderTemplates(cfg, labels, a, secretsPath);
    if paired.Failure? {
      return Failure(paired.error);
    }
    r := Success(SecretsModeConfig(secretsType, injectionMethod, paired.value));
  }

  method RenderTemplates(cfg: VSIConfig, ghost labels: map<string, string>, a: Annotations, paths: seq<string>)
    returns (r: Result<string>)
    requires paths == SecretsPaths(cfg, labels, a)
    ensures r == if !CountMismatch(cfg, labels, a) then Success(Blocks(cfg.templateBlock, AllValues(cfg, labels, a)))
                 else Failure(if CustomTemplates(cfg, a) then TemplateDestinationMismatch else PathDestinationMismatch)
  {
    var secretsPath := paths;
    var secretsTemplate := Split(Annotation(cfg, a, SECRETS_TEMPLATE_KEY), TEMPLATE_SEPARATOR);
    var templateDest := Split(Annotation(cfg, a, SECRETS_DESTINATION_KEY), SEPARATOR);
    var templateCmd := Split(Annotation(cfg, a, NOTIFY_KEY), SEPARATOR);
    var templateDestNum := |templateDest|;
    if templateDestNum == 1 && templateDest[0] == "" {
      assert templateDest == [""];
      templateDest := templateDest[0 := DEFAULT_DESTINATION];
    }
    assert templateDest == Destinations(cfg, a);
    if |secretsTemplate| == 1 && secretsTemplate[0] == "" {
      assert secretsTemplate == [""];
      if templateDestNum != |secretsPath| {
        return Failure(PathDestinationMismatch);
      }
      secretsTemplate := seq(templateDestNum, _ => cfg.templateDefaultTmpl);
    } else {
      if templateDestNum != |secretsTemplate| {
        return Failure(TemplateDestinationMismatch);
      }
      secretsPath := seq(templateDestNum, _ => "");
    }
    var templateCommands := seq(templateDestNum, i => if 0 <= i < |templateCmd| then templateCmd[i] else "");
    var templates := RenderBlocks(
      cfg.templateBlock, templateDest, secretsTemplate, secretsPath, templateCommands, AllValues(cfg, labels, a));
    r := Success(templates);
  }

  method RenderBlocks(
    block: string, templateDest: seq<string>, secretsTemplate: seq<string>, secretsPath: seq<string>,
    commands: seq<string>, ghost vs: seq<Values>)
    returns (templates: string)
    requires |templateDest| == |secretsTemplate| == |secretsPath| == |commands| == |vs|
    requires forall i :: 0 <= i < |vs| ==>
      vs[i] == Values(templateDest[i], secretsTemplate[i], secretsPath[i], commands[i])
    ensures templates == Blocks(block, vs)
  {
    templates := "";
    for i := 0 to |templateDest|
      invariant templates == Blocks(block, vs[..i])
    {
      var templateBlock := FillBlock(block, templateDest[i], secretsTemplate[i], secretsPath[i], commands[i]);
      assert vs[..i + 1][..i] == vs[..i];
      templates := templates + templateBlock;
      templates := templates + "\n";
    }
    assert vs[..|vs|] == vs;
  }

  method FillBlock(block: string, destination: string, content: string, path: string, command: string)
    returns (templateBlock: string)
    ensures templateBlock == Render(block, Values(destination, content, path, command))
  {
    templateBlock := block;
    templateBlock := ReplaceAll(templateBlock, DESTINATION_TAG, destination);
    templateBlock := ReplaceAll(templateBlock, CONTENT_TAG, content);
    templateBlock := ReplaceAll(templateBlock, PATH_TAG, path);
    templateBlock := ReplaceAll(templateBlock, COMMAND_TAG, command);
  }

  /* ---------- Tests on the computed configuration ---------- */

  predicate IsSecretsStatic(ctx: InjectionContext) {
    && SECRETS in ctx.modesConfig
    && ctx.modesConfig[SECRETS].SecretsModeConfig?
    && ctx.modesConfig[SECRETS].secretsType == STATIC
  }

  predicate IsSecretsInjectionEnv(ctx: InjectionContext) {
    && SECRETS in ctx.modesConfig
    && ctx.modesConfig[SECRETS].SecretsModeConfig?
    && ctx.modesConfig[SECRETS].injectionMethod == METHOD_ENV
  }

  /* ---------- secretsModeInject ---------- */

  function SecretsContainerNames(basePath: string): seq<string> {
    if basePath == PATH_INIT_CONTAINERS then [VAULT_AGENT_INIT, ENV_INIT]
    else if basePath == PATH_CONTAINERS then [VAULT_AGENT]
    else []
  }

  /** Init containers for static secrets, the agent sidecar for dynamic ones. */
  predicate SecretsInjects(basePath: string, name: string, ctx: InjectionContext) {
    if IsSecretsStatic(ctx) then
      && basePath == PATH_INIT_CONTAINERS
      && (name == VAULT_AGENT_INIT || (name == ENV_INIT && IsSecretsInjectionEnv(ctx)))
    else
      basePath == PATH_CONTAINERS && name == VAULT_AGENT
  }

  method SecretsModeInject(basePath: string, name: string, env: array<EnvVar>, ctx: InjectionContext)
    returns (inject: bool)
    requires SECRETS in ctx.modesConfig
    modifies env
    ensures inject == SecretsInjects(basePath, name, ctx)
    ensures forall k :: 0 <= k < env.Length ==>
      env[k] == if inject && old(env[k]).name == TEMPLATES_ENV
                then old(env[k]).(value := TemplateOf(ctx, SECRETS)) else old(env[k])
  {
    var names := SecretsContainerNames(basePath);
    for i := 0 to |names|
      invariant name !in names[..i] || !SecretsInjects(basePath, name, ctx)
      invariant forall k :: 0 <= k < env.Length ==> env[k] == old(env[k])
    {
      if names[i] == name {
        if (IsSecretsStatic(ctx) && basePath == PATH_INIT_CONTAINERS)
          || (!IsSecretsStatic(ctx) && basePath == PATH_CONTAINERS)
        {
          if names[i] == ENV_INIT && !IsSecretsInjectionEnv(ctx) {
            return false;
          }
          for k := 0 to env.Length
            invariant forall j :: 0 <= j < env.Length ==>
              env[j] == if j < k && old(env[j]).name == TEMPLATES_ENV
                        then old(env[j]).(value := TemplateOf(ctx, SECRETS)) else old(env[j])
          {
            if env[k].name == TEMPLATES_ENV {
              env[k] := env[k].(value := ctx.modesConfig[SECRETS].template);
            }
          }
          return true;
        }
      }
    }
    assert names[..|names|] == names;
    return false;
  }

  /* ---------- secretsModePatch ---------- */

  /** Mount path of the first mount of the secrets volume, or "". */
  function SecretsMountPath(mounts: seq<VolumeMount>): string {
    if mounts == [] then ""
    else if mounts[0].name == SECRETS_VOLUME then mounts[0].mountPath
    else SecretsMountPath(mounts[1..])
  }

  method GetMountPathOfSecretsVolume(c: Container) returns (mountPath: string)
    ensures mountPath == SecretsMountPath(c.volumeMounts)
  {
    mountPath := "";
    for i := 0 to |c.volumeMounts|
      invariant mountPath == ""
      invariant SecretsMountPath(c.volumeMounts) == SecretsMountPath(c.volumeMounts[i..])
    {
      if c.volumeMounts[i].name == SECRETS_VOLUME {
        mountPath := c.volumeMounts[i].mountPath;
        break;
      }
    }
  }

  function SecretsDir(c: Container): string {
    var p := SecretsMountPath(c.volumeMounts);
    if p == "" then SECRETS_DEFAULT_MOUNT_PATH else p
  }

  function WrappedCommand(c: Container, command: seq<string>): seq<string>
    requires SecretsDir(c) != ""
  {
    [JoinPath(SecretsDir(c), ENV_PROCESS)] + command
  }

  function WriteCommand(command: seq<string>): Json {
    Arr(WriteAll(command, WriteText))
  }

  function WrapEdit(c: Container): Edit {
    if c.command.Some? then Change(OP_REPLACE, "/command", WriteCommand(WrappedCommand(c, c.command.value)))
    else Keep
  }

  /** The first container without an explicit command stops the patch. */
  function FirstWithoutCommand(cs: seq<Container>): Option<Container> {
    if cs == [] then None
    else if cs[0].command.None? then Some(cs[0])
    else FirstWithoutCommand(cs[1..])
  }

  function EditAll(cs: seq<Container>, edit: Container -> Edit): seq<Edit> {
    seq(|cs|, i requires 0 <= i < |cs| => edit(cs[i]))
  }

  function WrapOps(cs: seq<Container>): seq<PatchOp> {
    EditOps(PATH_CONTAINERS, EditAll(cs, WrapEdit))
  }

  lemma EditAllPrefix(cs: seq<Container>, edit: Container -> Edit, i: nat)
    requires i < |cs|
    ensures EditOps(PATH_CONTAINERS, EditAll(cs[..i + 1], edit)) ==
            EditOps(PATH_CONTAINERS, EditAll(cs[..i], edit)) + EditOp(PATH_CONTAINERS, i, edit(cs[i]))
  {
    assert EditAll(cs[..i + 1], edit)[..i] == EditAll(cs[..i], edit);
  }

  method PatchCommand(cs: seq<Container>) returns (r: Result<seq<PatchOp>>)
    ensures r == match FirstWithoutCommand(cs)
                 case Some(c) => Failure(NoExplicitCommand(c.name))
                 case None => Success(WrapOps(cs))
  {
    var patch: seq<PatchOp> := [];
    for i := 0 to |cs|
      invariant FirstWithoutCommand(cs) == FirstWithoutCommand(cs[i..])
      invariant patch == WrapOps(cs[..i])
    {
      var c := cs[i];
      var mountPath := GetMountPathOfSecretsVolume(c);
      if mountPath == "" {
        mountPath := SECRETS_DEFAULT_MOUNT_PATH;
      }
      if c.command.Some? {
        var command := [JoinPath(mountPath, ENV_PROCESS)] + c.command.value;
        patch := patch + [PatchOp(OP_REPLACE, PATH_CONTAINERS + "/" + Itoa(i) + "/command", WriteCommand(command))];
        EditAllPrefix(cs, WrapEdit, i);
      } else {
        return Failure(NoExplicitCommand(c.name));
      }
    }
    assert cs[..|cs|] == cs;
    r := Success(patch);
  }

  /* ---------- addLifecycleHooks ---------- */

  function HookWord(word: string, mountPath: string): string {
    ReplaceAll(word, MOUNT_PATH_TAG, mountPath)
  }

  function HookCommand(command: seq<string>, mountPath: string): seq<string> {
    seq(|command|, i requires 0 <= i < |command| => HookWord(command[i], mountPath))
  }

  function WriteHandler(command: seq<string>): Json {
    Obj(map["exec" := Obj(PutItems(map[], "command", WriteAll(command, WriteText)))])
  }

  /** The container with its post-start hook replaced; the rest of its lifecycle is kept. */
  function Hooked(c: Container, command: seq<string>): Container {
    var hook := Some(WriteHandler(HookCommand(command, SecretsDir(c))));
    c.(lifecycle := Some(if c.lifecycle.Some? then c.lifecycle.value.(postStart := hook) else Lifecycle(hook, map[])))
  }

  function HookEdit(command: seq<string>): Container -> Edit {
    (c: Container) => Change(OP_REPLACE, "", WriteContainer(Hooked(c, command)))
  }

  function HookOps(cs: seq<Container>, command: seq<string>): seq<PatchOp> {
    EditOps(PATH_CONTAINERS, EditAll(cs, HookEdit(command)))
  }

  function HooksPatch(cfg: VSIConfig, cs: seq<Container>, a: Annotations, ctx: InjectionContext): Result<seq<PatchOp>> {
    if !Affirmative(Annotation(cfg, a, SECRETS_HOOK_KEY)) then Success([])
    else if Enabled(ctx, JOB) then Failure(HookWithJob)
    else if cfg.postStart.None? then Success([])
    else if cfg.postStart.value.exec.None? then Failure(UnsupportedHook)
    else Success(HookOps(cs, cfg.postStart.value.exec.value))
  }

  /** The configured hook command is copied before its placeholders are rewritten in place. */
  method RenderHook(command: array<string>, mountPath: string) returns (hookCommand: array<string>)
    ensures fresh(hookCommand) && hookCommand[..] == HookCommand(command[..], mountPath)
  {
    hookCommand := new string[command.Length](i requires 0 <= i < command.Length reads command => command[i]);
    for i := 0 to hookCommand.Length
      invariant forall k :: 0 <= k < hookCommand.Length ==>
        hookCommand[k] == if k < i then ReplaceAll(command[k], MOUNT_PATH_TAG, mountPath) else command[k]
    {
      hookCommand[i] := ReplaceAll(hookCommand[i], MOUNT_PATH_TAG, mountPath);
    }
  }

  function SecretsPatch(cfg: VSIConfig, cs: seq<Container>, a: Annotations, ctx: InjectionContext)
    : Result<seq<PatchOp>>
  {
    if !IsSecretsStatic(ctx) then HooksPatch(cfg, cs, a, ctx)
    else if IsSecretsInjectionEnv(ctx) then
      match FirstWithoutCommand(cs)
      case Some(c) => Failure(NoExplicitCommand(c.name))
      case None => Success(WrapOps(cs))
    else Success([])
  }
}
