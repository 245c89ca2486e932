/** Go iterates a map in an arbitrary order. The loop over the enabled modes, written as a fold over such
    an order, has the same outcome for every order. */
module Orders {
  import opened Manifest
  import opened Config
  import opened Job
  import opened PodUpdate

  /** What the loop computes for one container: whether to inject it, and its variables. */
  datatype Outcome = Outcome(inject: bool, env: seq<EnvVar>)

  /** What the mode's inject function writes into one variable when it injects the container. */
  function ModeWrites(mode: string, e: EnvVar, cs: seq<Container>, ctx: InjectionContext): EnvVar {
    if mode == SECRETS then if e.name == TEMPLATES_ENV then e.(value := TemplateOf(ctx, SECRETS)) else e
    else if mode == PROXY then if e.name == PROXY_CONFIG_ENV then e.(value := TemplateOf(ctx, PROXY)) else e
    else if cs != [] then ResolveJobEnv(e, cs)
    else e
  }

  /** One turn of the loop. */
  function Turn(
    mode: string, basePath: string, cs: seq<Container>, name: string, before: Outcome, ctx: InjectionContext)
    : Result<Outcome>
  {
    if !Enabled(ctx, mode) then Success(before)
    else if mode == JOB && basePath == PATH_CONTAINERS && |cs| != 1 then Failure(JobContainerCount)
    else if !ModeInjects(mode, basePath, name, ctx) then Success(before)
    else
      Success(Outcome(true,
        seq(|before.env|, i requires 0 <= i < |before.env| => ModeWrites(mode, before.env[i], cs, ctx))))
  }

  /** The whole loop, for one order. */
  function Turns(
    order: seq<string>, basePath: string, cs: seq<Container>, name: string, env: seq<EnvVar>, ctx: InjectionContext)
    : Result<Outcome>
  {
    if order == [] then Success(Outcome(false, env))
    else
      var before :- Turns(order[..|order| - 1], basePath, cs, name, env, ctx);
      Turn(order[|order| - 1], basePath, cs, name, before, ctx)
  }

  lemma TurnsNext(
    order: seq<string>, mode: string, basePath: string, cs: seq<Container>, name: string, env: seq<EnvVar>,
    ctx: InjectionContext)
    ensures Turns(order + [mode], basePath, cs, name, env, ctx) ==
            match Turns(order, basePath, cs, name, env, ctx)
            case Failure(e) => Failure(e)
            case Success(before) => Turn(mode, basePath, cs, name, before, ctx)
  {
    assert (order + [mode])[..|order|] == order;
  }

  function AsSet(order: seq<string>): set<string> {
    set m | m in order
  }

  lemma AsSetNext(order: seq<string>, mode: string)
    ensures AsSet(order + [mode]) == AsSet(order) + {mode}
  {
  }

  /** The keys of the order have been picked, those of the set not yet. */
  predicate Picked(order: seq<string>, todo: set<string>, keys: set<string>) {
    todo <= keys && AsSet(order) == keys - todo
  }

  lemma PickNext(order: seq<string>, mode: string, todo: set<string>, keys: set<string>)
    requires Picked(order, todo, keys) && mode in todo
    ensures Picked(order + [mode], todo - {mode}, keys)
    ensures mode !in AsSet(order)
  {
    AsSetNext(order, mode);
  }

  lemma PickedAll(order: seq<string>, keys: set<string>)
    requires Picked(order, {}, keys)
    ensures AsSet(order) == keys
  {
  }

  lemma PickedSome(order: seq<string>, todo: set<string>, keys: set<string>)
    requires Picked(order, todo, keys)
    ensures AsSet(order) <= keys
  {
  }

  /** The outcome in terms of the set of modes alone. */
  function Expected(
    modes: set<string>, basePath: string, cs: seq<Container>, name: string, env: seq<EnvVar>, ctx: InjectionContext)
    : Result<Outcome>
  {
    if JOB in modes && Enabled(ctx, JOB) && basePath == PATH_CONTAINERS && |cs| != 1 then Failure(JobContainerCount)
    else
      Success(Outcome(InjectedBy(modes, basePath, name, ctx),
        seq(|env|, i requires 0 <= i < |env| => ModesEnv(env[i], modes, basePath, cs, name, ctx))))
  }

  lemma StillRefused(
    modes: set<string>, more: set<string>, basePath: string, cs: seq<Container>, name: string, env: seq<EnvVar>,
    ctx: InjectionContext)
    requires modes <= more && Expected(modes, basePath, cs, name, env, ctx).Failure?
    ensures Expected(more, basePath, cs, name, env, ctx) == Expected(modes, basePath, cs, name, env, ctx)
  {
  }

  /** The outcome depends only on the set of modes asked. */
  lemma {:induction false} OutcomeOfSet(
    order: seq<string>, basePath: string, cs: seq<Container>, name: string, env: seq<EnvVar>, ctx: InjectionContext)
    requires AsSet(order) <= {SECRETS, PROXY, JOB}
    ensures Turns(order, basePath, cs, name, env, ctx) == Expected(AsSet(order), basePath, cs, name, env, ctx)
  {
    if order == [] {
      assert forall i :: 0 <= i < |env| ==> ModesEnv(env[i], {}, basePath, cs, name, ctx) == env[i];
      assert AsSet(order) == {};
      assert Expected({}, basePath, cs, name, env, ctx).value.env == env;
    } else {
      var shorter, m := order[..|order| - 1], order[|order| - 1];
      assert order == shorter + [m];
      AsSetNext(shorter, m);
      OutcomeOfSet(shorter, basePath, cs, name, env, ctx);
      if Expected(AsSet(shorter), basePath, cs, name, env, ctx).Success? {
        TurnStep(AsSet(shorter), m, basePath, cs, name, env, ctx);
      }
    }
  }

  lemma TurnStep(
    modes: set<string>, m: string, basePath: string, cs: seq<Container>, name: string, env: seq<EnvVar>,
    ctx: InjectionContext)
    requires m in {SECRETS, PROXY, JOB} && Expected(modes, basePath, cs, name, env, ctx).Success?
    ensures Turn(m, basePath, cs, name, Expected(modes, basePath, cs, name, env, ctx).value, ctx) ==
            Expected(modes + {m}, basePath, cs, name, env, ctx)
  {
    InjectedStep(modes, m, basePath, name, ctx);
    forall i | 0 <= i < |env| {
      ModesEnvStep(env[i], modes, m, basePath, cs, name, ctx);
    }
    var before := Expected(modes, basePath, cs, name, env, ctx).value;
    var after := Expected(modes + {m}, basePath, cs, name, env, ctx);
    if after.Success? {
      if ModeInjects(m, basePath, name, ctx) {
        assert Turn(m, basePath, cs, name, before, ctx).value.env == after.value.env;
      } else {
        assert before.env == after.value.env;
      }
    }
  }

  lemma EnvNamesDistinct()
    ensures TEMPLATES_ENV != PROXY_CONFIG_ENV && TEMPLATES_ENV != JOB_CONTAINER_ENV && TEMPLATES_ENV != JOB_WORKLOAD_ENV
    ensures PROXY_CONFIG_ENV != JOB_CONTAINER_ENV && PROXY_CONFIG_ENV != JOB_WORKLOAD_ENV
  {
    assert TEMPLATES_ENV[4] == 'S' && PROXY_CONFIG_ENV[4] == 'P';
    assert JOB_CONTAINER_ENV[4] == 'J' && JOB_WORKLOAD_ENV[4] == 'J';
  }

  /** One more mode resolves the variables it owns and leaves those of the others. */
  lemma ModesEnvStep(
    e: EnvVar, modes: set<string>, m: string, basePath: string, cs: seq<Container>, name: string, ctx: InjectionContext)
    requires m in {SECRETS, PROXY, JOB}
    ensures var before := ModesEnv(e, modes, basePath, cs, name, ctx);
      ModesEnv(e, modes + {m}, basePath, cs, name, ctx) ==
      if ModeInjects(m, basePath, name, ctx) then ModeWrites(m, before, cs, ctx) else before
  {
    EnvNamesDistinct();
  }

  lemma InjectedStep(modes: set<string>, m: string, basePath: string, name: string, ctx: InjectionContext)
    ensures InjectedBy(modes + {m}, basePath, name, ctx) <==>
      InjectedBy(modes, basePath, name, ctx) || ModeInjects(m, basePath, name, ctx)
  {
  }

  /** Order independence: two orders of the same modes inject the same container, init container or
      sidecar, with the same variables, or fail alike. */
  lemma OrderIndependence(
    order: seq<string>, other: seq<string>, basePath: string, cs: seq<Container>, name: string, env: seq<EnvVar>,
    ctx: InjectionContext)
    requires multiset(order) == multiset(other) && AsSet(order) <= {SECRETS, PROXY, JOB}
    ensures Turns(order, basePath, cs, name, env, ctx) == Turns(other, basePath, cs, name, env, ctx)
  {
    assert AsSet(order) == AsSet(other) by {
      forall m
        ensures m in order <==> m in other
      {
        assert m in order <==> m in multiset(order);
        assert m in other <==> m in multiset(other);
      }
    }
    OutcomeOfSet(order, basePath, cs, name, env, ctx);
    OutcomeOfSet(other, basePath, cs, name, env, ctx);
  }
}
