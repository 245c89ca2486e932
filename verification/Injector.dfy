/** The steps of one request that need no shared configuration: searches in the pod, the storage patch, the
    loop over the modes and the resolution of one container's slices. Each method computes the function
    named in its postcondition. Iteration over a Go map picks the next key nondeterministically. */
module Injector {
  import opened Text
  import opened JsonPatch
  import opened Manifest
  import opened Config
  import opened Secrets
  import opened Proxy
  import opened Job
  import opened Orders
  import opened PodUpdate

  /* ---------- Steps that need no configuration ---------- */

  lemma {:induction false} MountNameSkips(a: seq<VolumeMount>, b: seq<VolumeMount>, mountPath: string)
    requires forall j :: 0 <= j < |a| ==> a[j].mountPath != mountPath
    ensures MountNameAt(a + b, mountPath) == MountNameAt(b, mountPath)
  {
    if a == [] {
      assert a + b == b;
    } else {
      MountNameSkips(a[1..], b, mountPath);
      assert (a + b)[1..] == a[1..] + b;
    }
  }

  /** The first mount of the container at the path. */
  method FindMount(mounts: seq<VolumeMount>, mountPath: string) returns (found: bool, name: string)
    ensures found <==> exists j :: 0 <= j < |mounts| && mounts[j].mountPath == mountPath
    ensures forall rest :: found ==> MountNameAt(mounts + rest, mountPath) == name
  {
    for j := 0 to |mounts|
      invariant forall k :: 0 <= k < j ==> mounts[k].mountPath != mountPath
    {
      if mounts[j].mountPath == mountPath {
        found, name := true, mounts[j].name;
        forall rest
          ensures MountNameAt(mounts + rest, mountPath) == name
        {
          MountNameSkips(mounts[..j], mounts[j..] + rest, mountPath);
          assert mounts + rest == mounts[..j] + (mounts[j..] + rest);
          assert (mounts[j..] + rest)[0] == mounts[j];
        }
        return;
      }
    }
    found, name := false, "";
  }

  method GetServiceAccountTokenVolumeName(cs: seq<Container>, mountPath: string) returns (r: Result<string>)
    ensures r == var name := MountNameAt(AllMounts(cs), mountPath);
                 if name == "" then Failure(MissingMount(mountPath)) else Success(name)
  {
    var name := "";
    for i := 0 to |cs|
      invariant name == ""
      invariant MountNameAt(AllMounts(cs), mountPath) == MountNameAt(AllMounts(cs[i..]), mountPath)
    {
      var found, n := FindMount(cs[i].volumeMounts, mountPath);
      assert AllMounts(cs[i..]) == cs[i].volumeMounts + AllMounts(cs[i + 1..]);
      if found {
        name := n;
        break;
      }
      MountNameSkips(cs[i].volumeMounts, AllMounts(cs[i + 1..]), mountPath);
    }
    if name == "" {
      return Failure(MissingMount(mountPath));
    }
    return Success(name);
  }

  method MutationPolicy(cfg: VSIConfig, pod: Pod) returns (required: bool)
    ensures required == MutationRequired(cfg, pod)
  {
    var namespace := if pod.namespace == "" then DEFAULT_NAMESPACE else pod.namespace;
    for i := 0 to |IGNORED_NAMESPACES|
      invariant namespace !in IGNORED_NAMESPACES[..i]
    {
      if namespace == IGNORED_NAMESPACES[i] {
        return false;
      }
    }
    var status := Annotation(cfg, pod.annotations, STATUS_KEY);
    if ToLower(status) == STATUS_INJECTED {
      required := false;
    } else {
      required := ToLower(Annotation(cfg, pod.annotations, INJECT_KEY)) in {"y", "yes", "true", "on"};
    }
  }

  /** The target after the keys before: the first key that is absent or empty there empties it. */
  function TargetAfter(target: map<string, string>, order: seq<string>): map<string, string> {
    if order == [] then target
    else
      var before := TargetAfter(target, order[..|order| - 1]);
      if Lookup(before, order[|order| - 1]) == "" then map[] else before
  }

  /** The operations that add the annotations in the given order. */
  function AnnotationOps(target: map<string, string>, order: seq<string>, added: map<string, string>): seq<PatchOp>
    requires forall k :: k in order ==> k in added
  {
    if order == [] then []
    else
      var n := |order| - 1;
      AnnotationOps(target, order[..n], added)
      + [AnnotationOp(TargetAfter(target, order[..n]), order[n], added[order[n]])]
  }

  lemma AnnotationsNext(target: map<string, string>, order: seq<string>, key: string, added: map<string, string>)
    requires key in added && forall k :: k in order ==> k in added
    ensures var before := TargetAfter(target, order);
      && TargetAfter(target, order + [key]) == (if Lookup(before, key) == "" then map[] else before)
      && AnnotationOps(target, order + [key], added) ==
         AnnotationOps(target, order, added) + [AnnotationOp(before, key, added[key])]
  {
    assert (order + [key])[..|order|] == order;
  }

  /** The target gives every one of the annotations. */
  predicate GivesAll(target: map<string, string>, keys: seq<string>) {
    forall i :: 0 <= i < |keys| ==> Lookup(target, keys[i]) != ""
  }

  function AnnotationReplaced(key: string, value: string): PatchOp {
    PatchOp("replace", "/metadata/annotations/" + key, Str(value))
  }

  function AnnotationsRenewed(key: string, value: string): PatchOp {
    PatchOp("add", "/metadata/annotations", Obj(map[key := Str(value)]))
  }

  lemma AnnotationOpIs(target: map<string, string>, key: string, value: string)
    ensures AnnotationOp(target, key, value) ==
            if Lookup(target, key) != "" then AnnotationReplaced(key, value) else AnnotationsRenewed(key, value)
  {
    assert PATH_ANNOTATIONS + "/" == "/metadata/annotations/";
  }

  /** Annotation j is replaced when the pod gives it and all those before it; else it replaces them all. */
  lemma {:induction false} AnnotationOpsAt(
    target: map<string, string>, order: seq<string>, added: map<string, string>, j: nat)
    requires (forall k :: k in order ==> k in added) && j < |order|
    ensures |AnnotationOps(target, order, added)| == |order|
    ensures AnnotationOps(target, order, added)[j] ==
            if GivesAll(target, order[..j + 1]) then AnnotationReplaced(order[j], added[order[j]])
            else AnnotationsRenewed(order[j], added[order[j]])
  {
    var n := |order| - 1;
    if j < n {
      AnnotationOpsAt(target, order[..n], added, j);
      assert order[..n][..j + 1] == order[..j + 1];
    } else {
      if n > 0 {
        AnnotationOpsAt(target, order[..n], added, 0);
      }
      KeptTarget(target, order[..n]);
      GivesSnoc(target, order);
      AnnotationOpIs(TargetAfter(target, order[..n]), order[n], added[order[n]]);
      assert order[..n + 1] == order;
    }
  }

  lemma GivesSnoc(target: map<string, string>, keys: seq<string>)
    requires keys != []
    ensures GivesAll(target, keys) <==>
      GivesAll(target, keys[..|keys| - 1]) && Lookup(target, keys[|keys| - 1]) != ""
  {
  }

  lemma {:induction false} KeptTarget(target: map<string, string>, order: seq<string>)
    ensures TargetAfter(target, order) == if GivesAll(target, order) then target else map[]
  {
    if order != [] {
      KeptTarget(target, order[..|order| - 1]);
      GivesSnoc(target, order);
    }
  }

  /** Each key once. */
  predicate Enumerates(order: seq<string>, keys: set<string>) {
    AsSet(order) == keys && forall i, j :: 0 <= i < j < |order| ==> order[i] != order[j]
  }

  lemma OneAnnotation(target: map<string, string>, order: seq<string>, key: string, value: string)
    requires Enumerates(order, {key})
    ensures order == [key]
    ensures AnnotationOps(target, order, map[key := value]) == [AnnotationOp(target, key, value)]
  {
    assert key in AsSet(order) && forall k :: k in order ==> k in AsSet(order);
    assert |order| == 1 by {
      if |order| > 1 {
        assert order[0] in order && order[1] in order;
      }
    }
    assert order[..0] == [];
  }

  /** The loop's state once the keys of the order have been added. */
  predicate AddedSoFar(
    annotations: map<string, string>, added: map<string, string>, todo: set<string>, order: seq<string>,
    target: map<string, string>, patch: seq<PatchOp>)
  {
    && Picked(order, todo, added.Keys)
    && (forall i, j :: 0 <= i < j < |order| ==> order[i] != order[j])
    && (forall k :: k in order ==> k in added)
    && target == TargetAfter(annotations, order)
    && patch == AnnotationOps(annotations, order, added)
  }

  lemma AddedNext(
    annotations: map<string, string>, added: map<string, string>, todo: set<string>, order: seq<string>,
    target: map<string, string>, patch: seq<PatchOp>, key: string)
    requires AddedSoFar(annotations, added, todo, order, target, patch) && key in todo
    ensures key in added
    ensures AddedSoFar(annotations, added, todo - {key}, order + [key],
                       if Lookup(target, key) == "" then map[] else target,
                       patch + [AnnotationOp(target, key, added[key])])
  {
    PickNext(order, key, todo, added.Keys);
    AnnotationsNext(annotations, order, key, added);
  }

  lemma AddedAll(
    annotations: map<string, string>, added: map<string, string>, order: seq<string>,
    target: map<string, string>, patch: seq<PatchOp>)
    requires AddedSoFar(annotations, added, {}, order, target, patch)
    ensures Enumerates(order, added.Keys) && patch == AnnotationOps(annotations, order, added)
    ensures forall key, value :: added == map[key := value] ==> patch == [AnnotationOp(annotations, key, value)]
  {
    PickedAll(order, added.Keys);
    forall key, value | added == map[key := value]
      ensures patch == [AnnotationOp(annotations, key, value)]
    {
      OneAnnotation(annotations, order, key, value);
    }
  }

  /** One annotation: the first that is absent or empty replaces the whole map. */
  method AddAnnotation(target: map<string, string>, key: string, value: string)
    returns (op: PatchOp, after: map<string, string>)
    ensures op == AnnotationOp(target, key, value)
    ensures after == if Lookup(target, key) == "" then map[] else target
  {
    if Lookup(target, key) == "" {
      after := map[];
      op := PatchOp(OP_ADD, PATH_ANNOTATIONS, Obj(map[key := Str(value)]));
    } else {
      after := target;
      op := PatchOp(OP_REPLACE, PATH_ANNOTATIONS + "/" + key, Str(value));
    }
  }

  /** The loop over the annotations to add, in any order; the injector adds one. */
  method UpdateAnnotation(annotations: map<string, string>, added: map<string, string>)
    returns (patch: seq<PatchOp>)
    ensures exists order :: Enumerates(order, added.Keys) && patch == AnnotationOps(annotations, order, added)
    ensures forall key, value :: added == map[key := value] ==> patch == [AnnotationOp(annotations, key, value)]
  {
    patch := [];
    var target := annotations;
    var todo := added.Keys;
    ghost var order: seq<string> := [];
    while todo != {}
      invariant AddedSoFar(annotations, added, todo, order, target, patch)
      decreases |todo|
    {
      var key :| key in todo;
      AddedNext(annotations, added, todo, order, target, patch, key);
      var op, after := AddAnnotation(target, key, added[key]);
      todo := todo - {key};
      order := order + [key];
      target := after;
      patch := patch + [op];
    }
    AddedAll(annotations, added, order, target, patch);
  }

  /* ---------- addStorage ---------- */

  /** The search for a mount or a volume by its name. */
  method HasNamed<T>(xs: seq<T>, nameOf: T -> string, name: string) returns (found: bool)
    ensures found <==> exists i :: 0 <= i < |xs| && nameOf(xs[i]) == name
  {
    found := false;
    for i := 0 to |xs|
      invariant !found && forall k :: 0 <= k < i ==> nameOf(xs[k]) != name
    {
      if nameOf(xs[i]) == name {
        found := true;
        break;
      }
    }
  }

  lemma MountOpsNext(cs: seq<Container>, basePath: string, i: nat)
    requires i < |cs|
    ensures MountOps(cs[..i + 1], basePath) == MountOps(cs[..i], basePath) + EditOp(basePath, i, MountEdit(cs[i]))
  {
    assert EditAll(cs[..i + 1], MountEdit)[..i] == EditAll(cs[..i], MountEdit);
  }

  method AddVolumeMount(cs: seq<Container>, basePath: string) returns (patch: seq<PatchOp>)
    ensures patch == MountOps(cs, basePath)
  {
    patch := [];
    for i := 0 to |cs|
      invariant patch == MountOps(cs[..i], basePath)
    {
      MountOpsNext(cs, basePath, i);
      var firstVolMount := |cs[i].volumeMounts| == 0;
      var already := HasNamed(cs[i].volumeMounts, (m: VolumeMount) => m.name, SECRETS_VOLUME);
      if already {
        continue;
      }
      var value := WriteMount(VolumeMount(SECRETS_VOLUME, SECRETS_DEFAULT_MOUNT_PATH, map[]));
      var path := basePath + "/" + Itoa(i) + "/volumeMounts";
      if firstVolMount {
        value := Arr([value]);
      } else {
        path := path + "/-";
      }
      AddedMountOp(cs[i], basePath, i, path, value);
      patch := patch + [PatchOp(OP_ADD, path, value)];
    }
    assert cs[..|cs|] == cs;
  }

  lemma AddedMountOp(c: Container, basePath: string, i: nat, path: string, value: Json)
    requires !HasSecretsMount(c)
    requires path == if c.volumeMounts == [] then basePath + "/" + Itoa(i) + "/volumeMounts"
                     else basePath + "/" + Itoa(i) + "/volumeMounts" + "/-"
    requires value == if c.volumeMounts == [] then Arr([WriteMount(SECRETS_MOUNT)]) else WriteMount(SECRETS_MOUNT)
    ensures EditOp(basePath, i, MountEdit(c)) == [PatchOp(OP_ADD, path, value)]
  {
    assert "/volumeMounts/-" == "/volumeMounts" + "/-";
    assert basePath + "/" + Itoa(i) + ("/volumeMounts" + "/-") == basePath + "/" + Itoa(i) + "/volumeMounts" + "/-";
  }

  lemma AppendNext(base: string, first: bool, values: seq<Json>, v: Json)
    ensures AppendOps(base, first, values + [v]) == AppendOps(base, first, values) +
      [if first && values == [] then PatchOp(OP_ADD, base, Arr([v])) else PatchOp(OP_ADD, base + "/-", v)]
  {
  }

  method AddVolume(configured: seq<Volume>, podVolumes: seq<Volume>) returns (patch: seq<PatchOp>)
    ensures patch == VolumeOps(configured, podVolumes)
  {
    patch := [];
    var first := |podVolumes| == 0;
    for i := 0 to |configured|
      invariant patch == VolumeOps(configured[..i], podVolumes)
      invariant first <==> podVolumes == [] && AddedVolumes(configured[..i], podVolumes) == []
    {
      assert configured[..i + 1][..i] == configured[..i];
      var added := AddedVolumes(configured[..i], podVolumes);
      if configured[i].name == SECRETS_VOLUME && |podVolumes| > 0 {
        var already := HasNamed(podVolumes, (v: Volume) => v.name, SECRETS_VOLUME);
        if already {
          assert added + [] == added;
          continue;
        }
      }
      assert AddedVolumes(configured[..i + 1], podVolumes) == added + [configured[i]];
      assert WriteAll(added + [configured[i]], WriteVolume) ==
             WriteAll(added, WriteVolume) + [WriteVolume(configured[i])];
      AppendNext(PATH_VOLUMES, podVolumes == [], WriteAll(added, WriteVolume), WriteVolume(configured[i]));
      var value := WriteVolume(configured[i]);
      var path := PATH_VOLUMES;
      if first {
        first := false;
        value := Arr([value]);
      } else {
        path := path + "/-";
      }
      patch := patch + [PatchOp(OP_ADD, path, value)];
    }
    assert configured[..|configured|] == configured;
  }

  /* ---------- Resolving one container's slices in place ---------- */

  /** One enabled mode: dispatch to its inject function. */
  method InjectByMode(
    mode: string, basePath: string, cs: seq<Container>, name: string, env: array<EnvVar>, ctx: InjectionContext)
    returns (r: Result<bool>)
    requires ValidContext(ctx) && Enabled(ctx, mode)
    modifies env
    ensures r == if mode == JOB && basePath == PATH_CONTAINERS && |cs| != 1 then Failure(JobContainerCount)
                 else Success(ModeInjects(mode, basePath, name, ctx))
    ensures forall k :: 0 <= k < env.Length ==>
      env[k] == if r == Success(true) then ModeWrites(mode, old(env[k]), cs, ctx) else old(env[k])
  {
    if mode == SECRETS {
      var inject := SecretsModeInject(basePath, name, env, ctx);
      r := Success(inject);
    } else if mode == PROXY {
      var inject := ProxyModeInject(basePath, name, env, ctx);
      r := Success(inject);
    } else {
      r := JobModeInject(basePath, cs, name, env, ctx);
    }
  }

  /** The outcome as the loop holds it: its flag or its error, and the slice. */
  predicate Yields(outcome: Result<Outcome>, r: Result<bool>, env: seq<EnvVar>) {
    match outcome
    case Failure(e) => r == Failure(e)
    case Success(after) => r == Success(after.inject) && env == after.env
  }

  /** One turn of the loop over the modes, after those of the order. */
  method AskMode(
    mode: string, basePath: string, cs: seq<Container>, name: string, env: array<EnvVar>, ctx: InjectionContext,
    inject: bool, ghost order: seq<string>, ghost original: seq<EnvVar>)
    returns (r: Result<bool>)
    requires ValidContext(ctx) && mode in ctx.modesStatus
    requires Turns(order, basePath, cs, name, original, ctx) == Success(Outcome(inject, env[..]))
    modifies env
    ensures Yields(Turns(order + [mode], basePath, cs, name, original, ctx), r, env[..])
  {
    TurnsNext(order, mode, basePath, cs, name, original, ctx);
    if ctx.modesStatus[mode] {
      var modeInject := InjectByMode(mode, basePath, cs, name, env, ctx);
      if modeInject.Failure? {
        return modeInject;
      }
      r := Success(inject || modeInject.value);
    } else {
      r := Success(inject);
    }
  }

  lemma AskedAll(
    order: seq<string>, basePath: string, cs: seq<Container>, name: string, env: seq<EnvVar>, ctx: InjectionContext)
    requires ValidContext(ctx) && Picked(order, {}, ctx.modesStatus.Keys)
    ensures Turns(order, basePath, cs, name, env, ctx) ==
            Expected(ctx.modesStatus.Keys, basePath, cs, name, env, ctx)
  {
    PickedAll(order, ctx.modesStatus.Keys);
    OutcomeOfSet(order, basePath, cs, name, env, ctx);
  }

  lemma RefusedByAll(
    order: seq<string>, todo: set<string>, basePath: string, cs: seq<Container>, name: string, env: seq<EnvVar>,
    ctx: InjectionContext)
    requires ValidContext(ctx) && Picked(order, todo, ctx.modesStatus.Keys)
    requires Turns(order, basePath, cs, name, env, ctx).Failure?
    ensures Turns(order, basePath, cs, name, env, ctx) ==
            Expected(ctx.modesStatus.Keys, basePath, cs, name, env, ctx)
  {
    PickedSome(order, todo, ctx.modesStatus.Keys);
    OutcomeOfSet(order, basePath, cs, name, env, ctx);
    StillRefused(AsSet(order), ctx.modesStatus.Keys, basePath, cs, name, env, ctx);
  }

  /** Asks every enabled mode, in any order, and lets each resolve its variables in the slice. */
  method InjectByModes(basePath: string, cs: seq<Container>, name: string, env: array<EnvVar>, ctx: InjectionContext)
    returns (r: Result<bool>)
    requires ValidContext(ctx)
    modifies env
    ensures Yields(Expected(ctx.modesStatus.Keys, basePath, cs, name, old(env[..]), ctx), r, env[..])
  {
    ghost var original := env[..];
    ghost var order: seq<string> := [];
    var inject := false;
    var todo := ctx.modesStatus.Keys;
    while todo != {}
      invariant Picked(order, todo, ctx.modesStatus.Keys)
      invariant Turns(order, basePath, cs, name, original, ctx) == Success(Outcome(inject, env[..]))
      decreases |todo|
    {
      var mode :| mode in todo;
      PickNext(order, mode, todo, ctx.modesStatus.Keys);
      todo := todo - {mode};
      var asked := AskMode(mode, basePath, cs, name, env, ctx, inject, order, original);
      order := order + [mode];
      if asked.Failure? {
        RefusedByAll(order, todo, basePath, cs, name, original, ctx);
        return asked;
      }
      inject := asked.value;
    }
    AskedAll(order, basePath, cs, name, original, ctx);
    r := Success(inject);
  }

  method ResolveVaultEnv(env: array<EnvVar>, ctx: InjectionContext)
    modifies env
    ensures forall k :: 0 <= k < env.Length ==>
      env[k] == if old(env[k]).name == ROLE_ENV then old(env[k]).(value := ctx.role)
                else if old(env[k]).name == AUTH_METHOD_ENV then old(env[k]).(value := ctx.authMethod)
                else old(env[k])
  {
    assert ROLE_ENV != AUTH_METHOD_ENV;
    for k := 0 to env.Length
      invariant forall j :: 0 <= j < env.Length ==>
        env[j] == if j < k && old(env[j]).name == ROLE_ENV then old(env[j]).(value := ctx.role)
                  else if j < k && old(env[j]).name == AUTH_METHOD_ENV then old(env[j]).(value := ctx.authMethod)
                  else old(env[j])
    {
      if env[k].name == ROLE_ENV {
        env[k] := env[k].(value := ctx.role);
      }
      if env[k].name == AUTH_METHOD_ENV {
        env[k] := env[k].(value := ctx.authMethod);
      }
    }
  }

  method ResolveVolumeMounts(mounts: array<VolumeMount>, ctx: InjectionContext)
    modifies mounts
    ensures forall k :: 0 <= k < mounts.Length ==> mounts[k] == ResolveMount(old(mounts[k]), ctx)
  {
    for k := 0 to mounts.Length
      invariant forall j :: 0 <= j < mounts.Length ==>
        mounts[j] == if j < k then ResolveMount(old(mounts[j]), ctx) else old(mounts[j])
    {
      if mounts[k].mountPath == K8S_SA_MOUNT_PATH {
        mounts[k] := mounts[k].(name := ctx.k8sSATokenVolume);
      } else if mounts[k].mountPath == VAULT_SA_MOUNT_PATH {
        mounts[k] := mounts[k].(name := ctx.vaultSATokenVolume);
      }
    }
  }
}
