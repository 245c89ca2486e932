/** Where the code departs from its documentation: for each departure the exact condition, and a concrete
    request that shows it whatever the configuration. */
module Divergences {
  import opened Text
  import opened JsonPatch
  import opened Manifest
  import opened Config
  import opened Meaning
  import opened PodUpdate
  import opened Mutation

  /* ---------- A small pod with given annotations ---------- */

  lemma QualifiedApart(cfg: VSIConfig)
    ensures forall a, b :: FullKey(cfg, a) == FullKey(cfg, b) ==> a == b
  {
    forall a, b | FullKey(cfg, a) == FullKey(cfg, b) {
      FullKeyInjective(cfg, a, b);
    }
  }

  /** Annotations under their qualified keys. */
  function Qualified(cfg: VSIConfig, names: map<string, string>): map<string, string> {
    QualifiedApart(cfg);
    map n | n in names :: FullKey(cfg, n) := names[n]
  }

  lemma QualifiedLookup(cfg: VSIConfig, names: map<string, string>, key: string)
    ensures Annotation(cfg, Qualified(cfg, names), key) == Lookup(names, key)
  {
    QualifiedApart(cfg);
  }

  const TOKEN_MOUNT := VolumeMount("token", K8S_SA_MOUNT_PATH, map[])

  const SAMPLE_CONTAINER := Container("app", "", None, [], [TOKEN_MOUNT], None, map[])

  function SamplePod(cfg: VSIConfig, names: map<string, string>): Pod {
    Pod("", "", map[], Qualified(cfg, names), [], [SAMPLE_CONTAINER], [])
  }

  function Texts(a: map<string, string>): Fields {
    map k | k in a :: Str(a[k])
  }

  function SampleMeta(cfg: VSIConfig, names: map<string, string>): Fields {
    map["annotations" := Obj(Texts(Qualified(cfg, names)))]
  }

  const SAMPLE_SPEC: Fields := map["containers" := Arr([WriteContainer(SAMPLE_CONTAINER)])]

  function SampleDoc(cfg: VSIConfig, names: map<string, string>): Json {
    Obj(map["metadata" := Obj(SampleMeta(cfg, names)), "spec" := Obj(SAMPLE_SPEC)])
  }

  lemma SampleReads(cfg: VSIConfig, names: map<string, string>)
    ensures ReadPod(SampleDoc(cfg, names)) == Some(SamplePod(cfg, names))
  {
    ReadTexts(Qualified(cfg, names));
    MetaReads(Texts(Qualified(cfg, names)), SamplePod(cfg, names));
    SpecReads();
    PodRead(SampleDoc(cfg, names), SamplePod(cfg, names));
  }

  lemma ReadTexts(a: map<string, string>)
    ensures ReadTextMap(Texts(a)) == Some(a)
  {
    assert forall k :: k in Texts(a) ==> ReadText(Texts(a)[k]).Some?;
    assert ReadTextMap(Texts(a)).value == a;
  }

  lemma MetaReads(annotations: Fields, pod: Pod)
    requires ReadTextMap(annotations) == Some(pod.annotations)
    requires pod.name == "" && pod.namespace == "" && pod.labels == map[]
    ensures ReadsMeta(map["annotations" := Obj(annotations)], pod)
  {
    var meta: Fields := map["annotations" := Obj(annotations)];
    ReadTexts(map[]);
    assert Texts(map[]) == map[];
    assert "labels" !in meta && "name" !in meta && "namespace" !in meta;
  }

  lemma SpecReads()
    ensures ReadContainers(SAMPLE_SPEC, "containers") == Some([SAMPLE_CONTAINER])
    ensures ReadContainers(SAMPLE_SPEC, "initContainers") == Some([]) && ReadVolumes(SAMPLE_SPEC) == Some([])
  {
    assert ValidMount(TOKEN_MOUNT);
    ReadWriteContainer(SAMPLE_CONTAINER);
    ReadAllIs([WriteContainer(SAMPLE_CONTAINER)], ReadContainer, [SAMPLE_CONTAINER]);
    assert "initContainers" !in SAMPLE_SPEC && "volumes" !in SAMPLE_SPEC;
  }

  lemma SampleMounts(cfg: VSIConfig, names: map<string, string>)
    requires SA_TOKEN_KEY !in names
    ensures var pod := SamplePod(cfg, names);
      && VaultSAMountPath(cfg, pod.annotations) == K8S_SA_MOUNT_PATH
      && MountNameAt(AllMounts(pod.containers), K8S_SA_MOUNT_PATH) == "token"
  {
    QualifiedLookup(cfg, names, SA_TOKEN_KEY);
    assert [SAMPLE_CONTAINER][1..] == [];
    assert AllMounts([SAMPLE_CONTAINER]) == [TOKEN_MOUNT];
  }

  /** Annotations that ask for injection and name a secrets path. */
  function Names(auth: string, secretsType: string, mode: string, status: string): map<string, string> {
    map[INJECT_KEY := "yes", SECRETS_PATH_KEY := "secret/app", AUTH_KEY := auth, SECRETS_TYPE_KEY := secretsType,
        MODE_KEY := mode, STATUS_KEY := status]
  }

  lemma SampleLookups(cfg: VSIConfig, auth: string, secretsType: string, mode: string, status: string)
    ensures var a := Qualified(cfg, Names(auth, secretsType, mode, status));
      && Annotation(cfg, a, INJECT_KEY) == "yes" && Annotation(cfg, a, SECRETS_PATH_KEY) == "secret/app"
      && Annotation(cfg, a, AUTH_KEY) == auth && Annotation(cfg, a, SECRETS_TYPE_KEY) == secretsType
      && Annotation(cfg, a, MODE_KEY) == mode && Annotation(cfg, a, STATUS_KEY) == status
    ensures var a := Qualified(cfg, Names(auth, secretsType, mode, status));
      && Annotation(cfg, a, WORKLOAD_KEY) == "" && Annotation(cfg, a, SECRETS_METHOD_KEY) == ""
      && Annotation(cfg, a, SECRETS_TEMPLATE_KEY) == "" && Annotation(cfg, a, SECRETS_DESTINATION_KEY) == ""
      && Annotation(cfg, a, SECRETS_HOOK_KEY) == ""
    ensures SA_TOKEN_KEY !in Names(auth, secretsType, mode, status)
  {
    var names := Names(auth, secretsType, mode, status);
    NamesHold(auth, secretsType, mode, status);
    forall key | key in {INJECT_KEY, SECRETS_PATH_KEY, AUTH_KEY, SECRETS_TYPE_KEY, MODE_KEY, STATUS_KEY,
                         WORKLOAD_KEY, SECRETS_METHOD_KEY, SECRETS_TEMPLATE_KEY, SECRETS_DESTINATION_KEY,
                         SECRETS_HOOK_KEY}
      ensures Annotation(cfg, Qualified(cfg, names), key) == Lookup(names, key)
    {
      QualifiedLookup(cfg, names, key);
    }
  }

  lemma NamesHold(auth: string, secretsType: string, mode: string, status: string)
    ensures var names := Names(auth, secretsType, mode, status);
      && Lookup(names, INJECT_KEY) == "yes" && Lookup(names, SECRETS_PATH_KEY) == "secret/app"
      && Lookup(names, AUTH_KEY) == auth && Lookup(names, SECRETS_TYPE_KEY) == secretsType
      && Lookup(names, MODE_KEY) == mode && Lookup(names, STATUS_KEY) == status
      && names.Keys == {INJECT_KEY, SECRETS_PATH_KEY, AUTH_KEY, SECRETS_TYPE_KEY, MODE_KEY, STATUS_KEY}
      && names.Keys !! {SA_TOKEN_KEY, WORKLOAD_KEY, SECRETS_METHOD_KEY, SECRETS_TEMPLATE_KEY, SECRETS_DESTINATION_KEY,
                        SECRETS_HOOK_KEY}
  {
    assert STATUS_KEY[0] != INJECT_KEY[0] && MODE_KEY[0] != AUTH_KEY[0];
    assert SECRETS_PATH_KEY[8] == 'p' && SECRETS_TYPE_KEY[8] == 't' && SECRETS_HOOK_KEY[8] == 'h';
  }

  /** Such a pod is to be mutated, and refused at most for static secrets with AppRole. */
  lemma SampleReviewed(cfg: VSIConfig, auth: string, secretsType: string, mode: string, status: string)
    requires ToLower(auth) == AUTH_APPROLE && secretsType in {"", STATIC} && ToLower(status) != STATUS_INJECTED
    ensures var pod := SamplePod(cfg, Names(auth, secretsType, mode, status));
      ToMutate(cfg, pod) && forall e :: Reason(cfg, pod, e) ==> e == StaticWithAppRole
  {
    var names := Names(auth, secretsType, mode, status);
    SampleLookups(cfg, auth, secretsType, mode, status);
    SampleMounts(cfg, names);
    LowerCase();
    SampleReasons(cfg, SamplePod(cfg, names));
  }

  lemma SampleReasons(cfg: VSIConfig, pod: Pod)
    requires |pod.containers| == 1 && ToLower(Raw(cfg, pod.annotations, "auth")) == "approle"
    requires ToLower(Raw(cfg, pod.annotations, "secrets-type")) in {"", "static"}
    requires Raw(cfg, pod.annotations, "secrets-injection-method") == ""
    requires Raw(cfg, pod.annotations, "secrets-path") == "secret/app"
    requires Raw(cfg, pod.annotations, "secrets-template") == "" && Raw(cfg, pod.annotations, "secrets-hook") == ""
    requires Raw(cfg, pod.annotations, "secrets-destination") == ""
    requires VaultSAMountPath(cfg, pod.annotations) == K8S_SA_MOUNT_PATH
    requires MountNameAt(AllMounts(pod.containers), K8S_SA_MOUNT_PATH) != ""
    ensures forall e :: Reason(cfg, pod, e) ==> e == StaticWithAppRole
  {
    SplitNone("secret/app", ',');
    SplitNone("", ',');
    LowerCase();
    forall e | Reason(cfg, pod, e)
      ensures e == StaticWithAppRole
    {
      if e.MissingMount? {
        MountReason(cfg, pod, e.mountPath);
      } else if SecretsReason(cfg, pod.labels, pod.annotations, e) {
        SampleSecretsReasons(cfg, pod.labels, pod.annotations, e);
      } else {
        SampleOtherReasons(cfg, pod, e);
      }
    }
  }

  lemma SampleSecretsReasons(cfg: VSIConfig, labels: map<string, string>, a: map<string, string>, e: Error)
    requires ToLower(Raw(cfg, a, "secrets-type")) in {"", "static"}
    requires ToLower(Raw(cfg, a, "secrets-injection-method")) == "" && Raw(cfg, a, "secrets-path") != ""
    requires |Split(Raw(cfg, a, "secrets-path"), ",")| == |Split(Raw(cfg, a, "secrets-destination"), ",")|
    requires Raw(cfg, a, "secrets-template") == "" && SecretsReason(cfg, labels, a, e)
    ensures e == StaticWithAppRole
  {
  }

  lemma SampleOtherReasons(cfg: VSIConfig, pod: Pod, e: Error)
    requires |pod.containers| == 1 && ToLower(Raw(cfg, pod.annotations, "auth")) == "approle"
    requires ToLower(Raw(cfg, pod.annotations, "secrets-injection-method")) == ""
    requires ToLower(Raw(cfg, pod.annotations, "secrets-hook")) == ""
    requires !e.MissingMount? && !SecretsReason(cfg, pod.labels, pod.annotations, e)
    ensures !Reason(cfg, pod, e)
  {
  }

  lemma LowerCase()
    ensures ToLower("yes") == "yes" && ToLower(STATIC) == STATIC && ToLower("") == ""
    ensures ToLower("AppRole") == AUTH_APPROLE && ToLower("approle") == AUTH_APPROLE && "AppRole" != "approle"
    ensures ToLower("pending") == "pending" != STATUS_INJECTED
  {
    assert "AppRole"[0] != "approle"[0];
    assert |"pending"| != |STATUS_INJECTED|;
  }

  /* ---------- Static secrets with AppRole ---------- */

  /** The documentation rules out AppRole authentication with static secrets. The code compares the raw
      annotation although it authenticates with the lower-cased one: such a pod is refused exactly when
      the annotation is spelled in lower case, or for another reason. */
  lemma StaticAppRole(cfg: VSIConfig, doc: Json, pod: Pod)
    requires ReadPod(doc) == Some(pod) && ToMutate(cfg, pod)
    requires StaticSecrets(cfg, pod.annotations) && ToLower(Raw(cfg, pod.annotations, "auth")) == "approle"
    ensures !Respond(cfg, doc).allowed <==>
      || Raw(cfg, pod.annotations, "auth") == "approle"
      || exists e :: e != StaticWithAppRole && Reason(cfg, pod, e)
  {
    Acceptance(cfg, doc, pod);
    RawAppRole(cfg, pod);
  }

  lemma RawAppRole(cfg: VSIConfig, pod: Pod)
    requires StaticSecrets(cfg, pod.annotations)
    ensures Reason(cfg, pod, StaticWithAppRole) <==> Raw(cfg, pod.annotations, "auth") == "approle"
  {
  }

  /** Whatever the configuration, such a pod with any spelling of the method but `approle` is accepted with
      a patch; `AppRole` is such a spelling. */
  lemma AppRoleSpelling(cfg: VSIConfig, spelling: string)
    requires ToLower(spelling) == AUTH_APPROLE
    ensures var r := Respond(cfg, SampleDoc(cfg, Names(spelling, STATIC, "", "")));
      (r.allowed <==> r.patch.Some?) && (r.allowed <==> spelling != AUTH_APPROLE)
    ensures ToLower("AppRole") == AUTH_APPROLE && "AppRole" != AUTH_APPROLE
  {
    var pod := SamplePod(cfg, Names(spelling, STATIC, "", ""));
    SampleReads(cfg, Names(spelling, STATIC, "", ""));
    LowerCase();
    SampleReviewed(cfg, spelling, STATIC, "", "");
    SampleLookups(cfg, spelling, STATIC, "", "");
    SplitNone("", ',');
    StaticAppRole(cfg, SampleDoc(cfg, Names(spelling, STATIC, "", "")), pod);
    Acceptance(cfg, SampleDoc(cfg, Names(spelling, STATIC, "", "")), pod);
  }

  /* ---------- A status that is set but not `injected` ---------- */

  /** A pod with a pending status is accepted, with a patch that applies only if keys have no prefix. */
  lemma PendingStatus(cfg: VSIConfig)
    ensures var doc := SampleDoc(cfg, Names("approle", "", "", "pending"));
      var r := Respond(cfg, doc);
      r.patch.Some? && (ApplyAll(doc, r.patch.value).Some? <==> cfg.annotationKeyPrefix == "")
  {
    var names := Names("approle", "", "", "pending");
    var doc, pod := SampleDoc(cfg, names), SamplePod(cfg, names);
    SampleReads(cfg, names);
    LowerCase();
    SampleReviewed(cfg, "approle", "", "", "pending");
    SampleLookups(cfg, "approle", "", "", "pending");
    assert |DYNAMIC| != |STATIC|;
    Acceptance(cfg, doc, pod);
    ResponseApplies(cfg, doc, pod);
  }

  /* ---------- Job as the only mode ---------- */

  /** The documentation enables secrets when job is the only mode asked for. When job is the only
      registered mode asked for, secrets are enabled exactly when nothing else at all is asked for. */
  lemma JobAlone(cfg: VSIConfig, a: map<string, string>)
    requires "job" in RequestedModes(cfg, a)
    requires "secrets" !in RequestedModes(cfg, a) && "proxy" !in RequestedModes(cfg, a)
    ensures ModesStatusFor(cfg, a).Keys == {"secrets", "proxy", "job"}
    ensures ModesStatusFor(cfg, a)["secrets"] <==> |RequestedModes(cfg, a)| == 1
  {
    ModesRequested(cfg, a);
  }

  /** An unknown mode beside job turns secrets off. */
  lemma JobWithUnknown(cfg: VSIConfig)
    ensures StatusOf(cfg, "job") == map[SECRETS := true, PROXY := false, JOB := true]
    ensures StatusOf(cfg, "job,other") == map[SECRETS := false, PROXY := false, JOB := true]
  {
    SplitNone("job", ',');
    JobOther();
    StatusOfModes(cfg, "job");
    StatusOfModes(cfg, "job,other");
  }

  lemma StatusOfModes(cfg: VSIConfig, mode: string)
    ensures StatusOf(cfg, mode) == Statuses(Split(mode, ","))
  {
    var a := Qualified(cfg, Names("approle", "", mode, ""));
    SampleLookups(cfg, "approle", "", mode, "");
    ModesRequested(cfg, a);
    ThreeStatuses(ModesStatusFor(cfg, a), Split(mode, ","));
  }

  function Statuses(r: seq<string>): map<string, bool> {
    map[SECRETS := SECRETS in r || r == [""] || r == [JOB], PROXY := PROXY in r, JOB := JOB in r]
  }

  lemma ThreeStatuses(status: map<string, bool>, r: seq<string>)
    requires status.Keys == {SECRETS, PROXY, JOB}
    requires status[SECRETS] <==> SECRETS in r || r == [""] || r == [JOB]
    requires (status[PROXY] <==> PROXY in r) && (status[JOB] <==> JOB in r)
    ensures status == Statuses(r)
  {
  }

  lemma JobOther()
    ensures Split("job,other", ",") == ["job", "other"]
    ensures Statuses(["job", "other"]) == map[SECRETS := false, PROXY := false, JOB := true]
  {
    SplitTwo("job", "other", "job,other");
    assert "other"[0] != PROXY[0] && |"other"| != |JOB| && |"other"| != |SECRETS|;
    TwoModes(JOB, "other");
  }

  lemma SplitTwo(a: string, b: string, s: string)
    requires ',' !in a && ',' !in b && s == a + [','] + b
    ensures Split(s, ",") == [a, b]
  {
    SplitNone(a, ',');
    SplitNone(b, ',');
    SplitAppend(a, ',', b);
  }

  lemma TwoModes(a: string, b: string)
    ensures var r := [a, b];
      Statuses(r) == map[SECRETS := SECRETS in {a, b}, PROXY := PROXY in {a, b}, JOB := JOB in {a, b}]
  {
  }

  /** The statuses a request for these modes gets. */
  function StatusOf(cfg: VSIConfig, mode: string): map<string, bool> {
    ModesStatusFor(cfg, Qualified(cfg, Names("approle", "", mode, "")))
  }

  /** The request with the unknown mode is accepted nevertheless. */
  lemma JobWithUnknownAccepted(cfg: VSIConfig)
    ensures Respond(cfg, SampleDoc(cfg, Names("approle", "", "job,other", ""))).patch.Some?
  {
    var names := Names("approle", "", "job,other", "");
    LowerCase();
    SampleLookups(cfg, "approle", "", "job,other", "");
    SampleReads(cfg, names);
    SampleReviewed(cfg, "approle", "", "job,other", "");
    assert |DYNAMIC| != |STATIC|;
    Acceptance(cfg, SampleDoc(cfg, names), SamplePod(cfg, names));
  }
}
