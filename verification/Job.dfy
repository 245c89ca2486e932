/** The job mode: babysitter and agent for Kubernetes jobs, unless static secrets make them pointless. */
module Job {
  import opened Manifest
  import opened Config
  import opened Modes
  import opened Secrets

  function JobContainerNames(basePath: string): seq<string> {
    if basePath == PATH_CONTAINERS then [JOB_BABYSITTER, VAULT_AGENT] else []
  }

  /** Job mode asks for its sidecars unless secrets and job are the only modes and secrets are static. */
  predicate JobActive(ctx: InjectionContext) {
    Enabled(ctx, JOB) && !(EnabledSet(ctx.modesStatus) == {SECRETS, JOB} && IsSecretsStatic(ctx))
  }

  predicate JobInjects(basePath: string, name: string, ctx: InjectionContext) {
    basePath == PATH_CONTAINERS && name in {JOB_BABYSITTER, VAULT_AGENT} && JobActive(ctx)
  }

  function ResolveJobEnv(e: EnvVar, podContainers: seq<Container>): EnvVar
    requires podContainers != []
  {
    if e.name == JOB_CONTAINER_ENV then e.(value := podContainers[0].name)
    else if e.name == JOB_WORKLOAD_ENV then e.(value := "true")
    else e
  }

  method JobModeInject(
    basePath: string, podContainers: seq<Container>, name: string, env: array<EnvVar>, ctx: InjectionContext)
    returns (r: Result<bool>)
    requires Enabled(ctx, JOB)
    modifies env
    ensures r == if basePath == PATH_CONTAINERS && |podContainers| != 1 then Failure(JobContainerCount)
                 else Success(JobInjects(basePath, name, ctx))
    ensures forall k :: 0 <= k < env.Length ==>
      env[k] == if r == Success(true) then ResolveJobEnv(old(env[k]), podContainers) else old(env[k])
  {
    if basePath == PATH_CONTAINERS && |podContainers| != 1 {
      return Failure(JobContainerCount);
    }
    var secretsAndJob := IsEnabledModes(ctx.modesStatus, [SECRETS, JOB]);
    EnabledModesPair(ctx.modesStatus, SECRETS, JOB);
    if basePath == PATH_CONTAINERS && secretsAndJob && IsSecretsStatic(ctx) {
      return Success(false);
    }
    var names := JobContainerNames(basePath);
    for i := 0 to |names|
      invariant name !in names[..i]
      invariant forall k :: 0 <= k < env.Length ==> env[k] == old(env[k])
    {
      if names[i] == name {
        assert basePath == PATH_CONTAINERS;
        for k := 0 to env.Length
          invariant forall j :: 0 <= j < env.Length ==>
            env[j] == if j < k then ResolveJobEnv(old(env[j]), podContainers) else old(env[j])
        {
          if env[k].name == JOB_CONTAINER_ENV {
            env[k] := env[k].(value := podContainers[0].name);
          }
          if env[k].name == JOB_WORKLOAD_ENV {
            env[k] := env[k].(value := "true");
          }
        }
        return Success(true);
      }
    }
    assert names[..|names|] == names;
    return Success(false);
  }
}
