/** The whole admission decision: which pods are rejected, when the patch applies, what the mutated
    document reads as, and why mutating it again changes nothing. */
module Mutation {
  import opened Text
  import opened JsonPatch
  import opened Manifest
  import opened Config
  import opened Meaning
  import opened PodUpdate
  import opened Refinement

  /* ---------- The annotation operation ---------- */

  /** A document whose metadata holds these annotations, with none of another type. */
  predicate Annotated(doc: Json, annotations: map<string, string>) {
    && HasObject(doc, "metadata")
    && HasObject(doc.fields["metadata"], "annotations")
    && ReadTextMap(doc.fields["metadata"].fields["annotations"].fields) == Some(annotations)
  }

  function AnnotationFields(doc: Json): Fields
    requires HasObject(doc, "metadata") && HasObject(doc.fields["metadata"], "annotations")
  {
    doc.fields["metadata"].fields["annotations"].fields
  }

  function WithAnnotations(doc: Json, fields: Fields): Json
    requires HasObject(doc, "metadata")
  {
    Obj(doc.fields["metadata" := Obj(doc.fields["metadata"].fields["annotations" := Obj(fields)])])
  }

  lemma AnnotationsPointer()
    ensures ParsePointer(PATH_ANNOTATIONS) == Some(["metadata", "annotations"])
  {
    TwoTokens(PATH_ANNOTATIONS, "metadata", "annotations");
  }

  lemma TwoTokens(p: string, t: string, u: string)
    requires Plain(t) && Plain(u) && p == "/" + t + "/" + u
    ensures ParsePointer(p) == Some([t, u])
  {
    PointerOne(t);
    PointerSnoc("/" + t, u);
    assert [t] + [u] == [t, u];
  }

  lemma ApplyUnderMetadata(op: string, doc: Json, rest: seq<string>, value: Json)
    requires HasObject(doc, "metadata") && HasObject(doc.fields["metadata"], "annotations") && rest != []
    ensures ApplyAt(op, doc, ["metadata", "annotations"] + rest, value) ==
            match ApplyAt(op, Obj(AnnotationFields(doc)), rest, value)
            case None => None
            case Some(x) => Some(Obj(doc.fields["metadata" :=
              Obj(doc.fields["metadata"].fields["annotations" := x])]))
  {
    var tokens := ["metadata", "annotations"] + rest;
    assert tokens[1..] == ["annotations"] + rest && tokens[1..][1..] == rest;
    assert ApplyAt(op, doc.fields["metadata"], ["annotations"] + rest, value) ==
           match ApplyAt(op, Obj(AnnotationFields(doc)), rest, value)
           case None => None
           case Some(x) => Some(Obj(doc.fields["metadata"].fields["annotations" := x]));
  }

  /** Adding the annotations object replaces whatever annotations were there. */
  lemma AddAnnotations(doc: Json, fields: Fields)
    requires HasObject(doc, "metadata")
    ensures ApplyOp(doc, PatchOp(OP_ADD, PATH_ANNOTATIONS, Obj(fields))) == Some(WithAnnotations(doc, fields))
  {
    AnnotationsPointer();
    AddUnderMetadata(doc, fields);
  }

  lemma AddUnderMetadata(doc: Json, fields: Fields)
    requires HasObject(doc, "metadata")
    ensures ApplyAt(OP_ADD, doc, ["metadata", "annotations"], Obj(fields)) == Some(WithAnnotations(doc, fields))
  {
    assert ["metadata", "annotations"][1..] == ["annotations"];
  }

  /** A key without prefix names its annotation. */
  lemma ReplaceAnnotation(doc: Json, annotations: map<string, string>, key: string, value: Json)
    requires Annotated(doc, annotations) && Plain(key) && key in annotations
    ensures ApplyOp(doc, PatchOp(OP_REPLACE, PATH_ANNOTATIONS + "/" + key, value)) ==
            Some(WithAnnotations(doc, AnnotationFields(doc)[key := value]))
  {
    AnnotationsPointer();
    PointerSnoc(PATH_ANNOTATIONS, key);
    ApplyUnderMetadata(OP_REPLACE, doc, [key], value);
  }

  lemma DescendText(op: string, j: Json, tokens: seq<string>, value: Json)
    requires (j.Str? || j.Null?) && tokens != []
    ensures ApplyAt(op, j, tokens, value) == None
  {
  }

  /** A key with a slash is read as a path into a text annotation, where there is nothing to replace. */
  lemma ReplacePrefixed(doc: Json, annotations: map<string, string>, prefix: string, key: string, value: Json)
    requires Annotated(doc, annotations) && Plain(key)
    ensures ApplyOp(doc, PatchOp(OP_REPLACE, PATH_ANNOTATIONS + "/" + (prefix + "/" + key), value)) == None
  {
    AnnotationsPointer();
    PrefixedPointer(PATH_ANNOTATIONS, prefix, key);
    if ParsePointer("/" + prefix).Some? {
      var rest := ParsePointer("/" + prefix).value + [key];
      PointerNonEmpty("/" + prefix);
      ApplyUnderMetadata(OP_REPLACE, doc, rest, value);
      NothingBelowAnnotation(doc, annotations, rest, value);
    }
  }

  lemma PrefixedPointer(base: string, prefix: string, key: string)
    requires base != "" && base[0] == '/' && ParsePointer(base).Some? && Plain(key)
    ensures ParsePointer(base + "/" + (prefix + "/" + key)) ==
            if ParsePointer("/" + prefix).None? then None
            else Some(ParsePointer(base).value + (ParsePointer("/" + prefix).value + [key]))
  {
    var p := "/" + prefix;
    assert base + "/" + (prefix + "/" + key) == base + (p + ("/" + key));
    PointerOne(key);
    PointerAppend(p, "/" + key);
    PointerAppend(base, p + ("/" + key));
  }

  lemma NothingBelowAnnotation(doc: Json, annotations: map<string, string>, rest: seq<string>, value: Json)
    requires Annotated(doc, annotations) && |rest| > 1
    ensures ApplyAt(OP_REPLACE, Obj(AnnotationFields(doc)), rest, value) == None
  {
    var f := AnnotationFields(doc);
    if rest[0] in f {
      assert ReadText(f[rest[0]]).Some?;
      DescendText(OP_REPLACE, f[rest[0]], rest[1..], value);
    }
  }

  /* ---------- The whole patch ---------- */

  /** The guard of the code's branches: no status yet, or annotation keys without prefix. */
  predicate StatusPatchable(cfg: VSIConfig, pod: Pod) {
    Annotation(cfg, pod.annotations, STATUS_KEY) == "" || cfg.annotationKeyPrefix == ""
  }

  lemma AnnotationsObject(doc: Json, pod: Pod, key: string)
    requires ReadPod(doc) == Some(pod) && Lookup(pod.annotations, key) != ""
    ensures Annotated(doc, pod.annotations)
  {
    assert key in pod.annotations;
  }

  lemma IntendedMetadata(cfg: VSIConfig, doc: Json, pod: Pod, ctx: InjectionContext, annotations: map<string, string>)
    requires Submitted(doc, pod) && Annotated(doc, annotations)
    ensures Annotated(IntendedDoc(cfg, doc, pod, ctx), annotations)
    ensures IntendedDoc(cfg, doc, pod, ctx).fields["metadata"] == doc.fields["metadata"]
  {
  }

  function NewAnnotations(cfg: VSIConfig, doc: Json, pod: Pod): Fields
    requires Annotated(doc, pod.annotations)
  {
    var key := FullKey(cfg, STATUS_KEY);
    if Lookup(pod.annotations, key) == "" then map[key := Str(STATUS_INJECTED)]
    else AnnotationFields(doc)[key := Str(STATUS_INJECTED)]
  }

  /** The document the API server ends up with. */
  function MutatedDoc(cfg: VSIConfig, doc: Json, pod: Pod, ctx: InjectionContext): Json
    requires Submitted(doc, pod) && Annotated(doc, pod.annotations)
  {
    IntendedMetadata(cfg, doc, pod, ctx, pod.annotations);
    WithAnnotations(IntendedDoc(cfg, doc, pod, ctx), NewAnnotations(cfg, doc, pod))
  }

  lemma AnnotationStage(cfg: VSIConfig, doc: Json, pod: Pod, d: Json)
    requires Annotated(doc, pod.annotations) && Annotated(d, pod.annotations)
    requires AnnotationFields(d) == AnnotationFields(doc)
    ensures ApplyOp(d, AnnotationOp(pod.annotations, FullKey(cfg, STATUS_KEY), STATUS_INJECTED)) ==
            if StatusPatchable(cfg, pod) then Some(WithAnnotations(d, NewAnnotations(cfg, doc, pod))) else None
  {
    var key := FullKey(cfg, STATUS_KEY);
    if Lookup(pod.annotations, key) == "" {
      AddAnnotations(d, map[key := Str(STATUS_INJECTED)]);
    } else if cfg.annotationKeyPrefix == "" {
      ReplaceAnnotation(d, pod.annotations, key, Str(STATUS_INJECTED));
    } else {
      ReplacePrefixed(d, pod.annotations, cfg.annotationKeyPrefix, STATUS_KEY, Str(STATUS_INJECTED));
    }
  }

  lemma AffirmativeNonEmpty(value: string)
    requires Affirmative(value)
    ensures value != ""
  {
    assert |ToLower(value)| == |value|;
  }

  lemma AcceptedShape(cfg: VSIConfig, doc: Json, pod: Pod)
    requires ReadPod(doc) == Some(pod) && MutationRequired(cfg, pod) && FullPatch(cfg, pod).Success?
    ensures Submitted(doc, pod) && Annotated(doc, pod.annotations)
    ensures PodPatch(cfg, pod).Success? && ContextFor(cfg, pod).Success?
  {
    AffirmativeNonEmpty(Annotation(cfg, pod.annotations, INJECT_KEY));
    AnnotationsObject(doc, pod, FullKey(cfg, INJECT_KEY));
  }

  /** The response's patch applies exactly when the status annotation is empty or keys carry no prefix,
      and then it yields exactly the mutated document. */
  lemma ResponseApplies(cfg: VSIConfig, doc: Json, pod: Pod)
    requires ReadPod(doc) == Some(pod) && MutationRequired(cfg, pod) && FullPatch(cfg, pod).Success?
    ensures Submitted(doc, pod) && Annotated(doc, pod.annotations) && ContextFor(cfg, pod).Success?
    ensures ApplyAll(doc, FullPatch(cfg, pod).value).Some? <==> StatusPatchable(cfg, pod)
    ensures StatusPatchable(cfg, pod) ==>
      ApplyAll(doc, FullPatch(cfg, pod).value) == Some(MutatedDoc(cfg, doc, pod, ContextFor(cfg, pod).value))
  {
    AcceptedShape(cfg, doc, pod);
    PatchRefinement(cfg, doc, pod);
    var ctx := ContextFor(cfg, pod).value;
    IntendedMetadata(cfg, doc, pod, ctx, pod.annotations);
    var d := IntendedDoc(cfg, doc, pod, ctx);
    AnnotationStage(cfg, doc, pod, d);
    ApplySnoc(doc, PodPatch(cfg, pod).value, AnnotationOp(pod.annotations, FullKey(cfg, STATUS_KEY), STATUS_INJECTED));
  }

  /** Every entry but the one of the key is kept. */
  predicate FieldsKept(before: Fields, after: Fields, key: string) {
    forall k :: k in before && k != key ==> k in after && after[k] == before[k]
  }

  /** Every annotation of the first document but the one of the key is in the second, unchanged. */
  predicate OthersKept(before: Json, after: Json, key: string)
    requires HasObject(before, "metadata") && HasObject(before.fields["metadata"], "annotations")
  {
    && HasObject(after, "metadata") && HasObject(after.fields["metadata"], "annotations")
    && FieldsKept(AnnotationFields(before), AnnotationFields(after), key)
  }

  /** Applying the response keeps the pod's other annotations exactly when the pod already had a status
      and annotation keys carry no prefix; with a prefix it either fails or drops them all. */
  lemma OtherAnnotationsKept(cfg: VSIConfig, doc: Json, pod: Pod)
    requires ReadPod(doc) == Some(pod) && MutationRequired(cfg, pod) && FullPatch(cfg, pod).Success?
    ensures Annotated(doc, pod.annotations)
    ensures var after := ApplyAll(doc, FullPatch(cfg, pod).value);
      (after.Some? && OthersKept(doc, after.value, FullKey(cfg, STATUS_KEY)))
      <==> (Annotation(cfg, pod.annotations, STATUS_KEY) != "" && cfg.annotationKeyPrefix == "")
  {
    ResponseApplies(cfg, doc, pod);
    NewAnnotationsKeep(cfg, doc, pod);
    MutatedAnnotations(cfg, doc, pod, ContextFor(cfg, pod).value);
  }

  lemma MutatedAnnotations(cfg: VSIConfig, doc: Json, pod: Pod, ctx: InjectionContext)
    requires Submitted(doc, pod) && Annotated(doc, pod.annotations)
    ensures var after := MutatedDoc(cfg, doc, pod, ctx);
      && HasObject(after, "metadata") && HasObject(after.fields["metadata"], "annotations")
      && AnnotationFields(after) == NewAnnotations(cfg, doc, pod)
  {
  }

  /** The new annotations hold the others exactly when the pod already had a (non-empty) status. */
  lemma NewAnnotationsKeep(cfg: VSIConfig, doc: Json, pod: Pod)
    requires Annotated(doc, pod.annotations) && MutationRequired(cfg, pod)
    ensures FieldsKept(AnnotationFields(doc), NewAnnotations(cfg, doc, pod), FullKey(cfg, STATUS_KEY))
      <==> Annotation(cfg, pod.annotations, STATUS_KEY) != ""
  {
    var inject := FullKey(cfg, INJECT_KEY);
    FullKeyInjective(cfg, INJECT_KEY, STATUS_KEY);
    assert INJECT_KEY[0] != STATUS_KEY[0];
    AffirmativeNonEmpty(Annotation(cfg, pod.annotations, INJECT_KEY));
    assert inject in pod.annotations;
    assert inject in AnnotationFields(doc);
  }

  /* ---------- What the mutated document reads as ---------- */

  /** The injected containers as the mutated document reads them. */
  function Fronted(
    configured: seq<Container>, basePath: string, cs: seq<Container>, ctx: InjectionContext): seq<Container>
  {
    MapContainers(Injected(configured, basePath, cs, ctx), Normal)
  }

  function InjectedInits(cfg: VSIConfig, pod: Pod, ctx: InjectionContext): seq<Container> {
    Fronted(cfg.injection.initContainers, PATH_INIT_CONTAINERS, pod.initContainers, ctx)
  }

  function InjectedSidecars(cfg: VSIConfig, pod: Pod, ctx: InjectionContext): seq<Container> {
    Fronted(cfg.injection.containers, PATH_CONTAINERS, pod.containers, ctx)
  }

  function NewAnnotationTexts(cfg: VSIConfig, pod: Pod): map<string, string> {
    var key := FullKey(cfg, STATUS_KEY);
    if Lookup(pod.annotations, key) == "" then map[key := STATUS_INJECTED]
    else pod.annotations[key := STATUS_INJECTED]
  }

  /** The intended pod: injected containers first, the secrets mount everywhere, own containers
      rewritten, volumes completed, status recorded. */
  function MutatedPod(cfg: VSIConfig, pod: Pod, ctx: InjectionContext): Pod {
    pod.(initContainers := InjectedInits(cfg, pod, ctx) + MapContainers(pod.initContainers, Mounted),
         containers := InjectedSidecars(cfg, pod, ctx) + MapContainers(OwnContainers(cfg, pod, ctx), Mounted),
         volumes := pod.volumes + AddedVolumes(cfg.injection.volumes, pod.volumes),
         annotations := NewAnnotationTexts(cfg, pod))
  }

  lemma {:induction false} InjectedValid(
    configured: seq<Container>, basePath: string, cs: seq<Container>, ctx: InjectionContext)
    requires forall i :: 0 <= i < |configured| ==> ValidContainer(configured[i])
    ensures forall i :: 0 <= i < |Injected(configured, basePath, cs, ctx)| ==>
      ValidContainer(Injected(configured, basePath, cs, ctx)[i])
  {
    if configured != [] {
      var n := |configured| - 1;
      InjectedValid(configured[..n], basePath, cs, ctx);
      ResolvedValid(configured[n], basePath, cs, ctx);
    }
  }

  lemma ResolvedValid(c: Container, basePath: string, cs: seq<Container>, ctx: InjectionContext)
    requires ValidContainer(c)
    ensures ValidContainer(Resolved(c, basePath, cs, ctx))
  {
    var r := Resolved(c, basePath, cs, ctx);
    forall i | 0 <= i < |r.env|
      ensures ValidEnv(r.env[i])
    {
      assert ValidEnv(c.env[i]);
      assert ResolveEnv(c.env[i], basePath, cs, c.name, ctx).rest == c.env[i].rest;
    }
    forall i | 0 <= i < |r.volumeMounts|
      ensures ValidMount(r.volumeMounts[i])
    {
      assert ValidMount(c.volumeMounts[i]);
    }
  }

  lemma ReadWritten(cs: seq<Container>)
    requires forall i :: 0 <= i < |cs| ==> ValidContainer(cs[i])
    ensures ReadAll(WriteAll(cs, WriteContainer), ReadContainer) == Some(MapContainers(cs, Normal))
  {
    forall i | 0 <= i < |cs| { ReadWriteContainer(cs[i]); }
    ReadAllIs(WriteAll(cs, WriteContainer), ReadContainer, MapContainers(cs, Normal));
  }

  lemma ReadFront(cs: seq<Container>, items: seq<Json>, own: seq<Container>)
    requires forall i :: 0 <= i < |cs| ==> ValidContainer(cs[i])
    requires Represent(items, own)
    ensures ReadAll(WriteAll(cs, WriteContainer) + items, ReadContainer) == Some(MapContainers(cs, Normal) + own)
  {
    ReadWritten(cs);
    ReadAllIs(items, ReadContainer, own);
    ReadAllAppend(WriteAll(cs, WriteContainer), items, ReadContainer);
  }

  lemma {:induction false} AddedFrom(configured: seq<Volume>, podVolumes: seq<Volume>)
    requires forall i :: 0 <= i < |configured| ==> ValidVolume(configured[i])
    ensures forall i :: 0 <= i < |AddedVolumes(configured, podVolumes)| ==>
      ValidVolume(AddedVolumes(configured, podVolumes)[i])
  {
    if configured != [] {
      AddedFrom(configured[..|configured| - 1], podVolumes);
    }
  }

  lemma ReadAddedVolumes(cfg: VSIConfig, doc: Json, pod: Pod)
    requires ValidConfig(cfg) && Submitted(doc, pod)
    ensures HasObject(doc, "spec")
    ensures ReadAll(IntendedVolumes(cfg, doc, pod), ReadVolume) ==
            Some(pod.volumes + AddedVolumes(cfg.injection.volumes, pod.volumes))
  {
    SubmittedArrays(doc, pod);
    SubmittedVolumes(doc, pod);
    var added := AddedVolumes(cfg.injection.volumes, pod.volumes);
    AddedFrom(cfg.injection.volumes, pod.volumes);
    ReadWrittenVolumes(added);
    ReadAllAppend(Items(Spec(doc), "volumes"), WriteAll(added, WriteVolume), ReadVolume);
  }

  lemma SubmittedVolumes(doc: Json, pod: Pod)
    requires Submitted(doc, pod) && HasObject(doc, "spec")
    ensures ReadAll(Items(Spec(doc), "volumes"), ReadVolume) == Some(pod.volumes)
    ensures ReadArr(Spec(doc), "initContainers").Some? && ReadArr(Spec(doc), "containers").Some?
    ensures ReadArr(Spec(doc), "volumes").Some?
  {
    SpecReadable(Spec(doc), pod);
  }

  lemma SpecReadable(spec: Fields, pod: Pod)
    requires ReadVolumes(spec) == Some(pod.volumes)
    requires ReadContainers(spec, "initContainers").Some? && ReadContainers(spec, "containers").Some?
    ensures ReadAll(Items(spec, "volumes"), ReadVolume) == Some(pod.volumes)
    ensures ReadArr(spec, "initContainers").Some? && ReadArr(spec, "containers").Some?
    ensures ReadArr(spec, "volumes").Some?
  {
  }

  lemma ReadWrittenVolumes(volumes: seq<Volume>)
    requires forall i :: 0 <= i < |volumes| ==> ValidVolume(volumes[i])
    ensures ReadAll(WriteAll(volumes, WriteVolume), ReadVolume) == Some(volumes)
  {
    forall i | 0 <= i < |volumes| { ReadWriteVolume(volumes[i]); }
    ReadAllIs(WriteAll(volumes, WriteVolume), ReadVolume, volumes);
  }

  /** The arrays of a view are readable and hold what they were given. */
  lemma ReadView(doc: Json, inits: seq<Json>, cnts: seq<Json>, vols: seq<Json>)
    requires HasObject(doc, "spec") && Grown(doc, inits, cnts, vols)
    requires ReadArr(Spec(doc), "initContainers").Some?
    requires ReadArr(Spec(doc), "containers").Some? && ReadArr(Spec(doc), "volumes").Some?
    ensures var spec := Spec(View(doc, inits, cnts, vols));
      && ReadArr(spec, "initContainers") == Some(inits)
      && ReadArr(spec, "containers") == Some(cnts)
      && ReadArr(spec, "volumes") == Some(vols)
    ensures forall k :: k in doc.fields && k != "spec" ==>
      k in View(doc, inits, cnts, vols).fields && View(doc, inits, cnts, vols).fields[k] == doc.fields[k]
    ensures forall k :: k in View(doc, inits, cnts, vols).fields && k != "spec" ==> k in doc.fields
  {
  }

  lemma ReadNewAnnotations(cfg: VSIConfig, doc: Json, pod: Pod)
    requires Annotated(doc, pod.annotations)
    ensures ReadTextMap(NewAnnotations(cfg, doc, pod)) == Some(NewAnnotationTexts(cfg, pod))
  {
    var f := NewAnnotations(cfg, doc, pod);
    assert forall k :: k in f ==> ReadText(f[k]).Some?;
    assert ReadTextMap(f).value == NewAnnotationTexts(cfg, pod);
  }

  /** The containers of the mutated document. */
  lemma ReadIntended(cfg: VSIConfig, doc: Json, pod: Pod, ctx: InjectionContext)
    requires ValidConfig(cfg) && Submitted(doc, pod)
    ensures ReadAll(IntendedInits(cfg, doc, pod, ctx), ReadContainer) == Some(MutatedPod(cfg, pod, ctx).initContainers)
    ensures ReadAll(IntendedContainers(cfg, doc, pod, ctx), ReadContainer) == Some(MutatedPod(cfg, pod, ctx).containers)
  {
    SubmittedArrays(doc, pod);
    RewrittenRepresent(ChangeFor(cfg, pod, ctx), Items(Spec(doc), "containers"), pod.containers);
    MountedRepresent(Items(Spec(doc), "initContainers"), pod.initContainers);
    MountedRepresent(OwnDocs(cfg, doc, pod, ctx), OwnContainers(cfg, pod, ctx));
    InjectedValid(cfg.injection.initContainers, PATH_INIT_CONTAINERS, pod.initContainers, ctx);
    InjectedValid(cfg.injection.containers, PATH_CONTAINERS, pod.containers, ctx);
    ReadFront(Injected(cfg.injection.initContainers, PATH_INIT_CONTAINERS, pod.initContainers, ctx),
      MountedDocs(Items(Spec(doc), "initContainers"), pod.initContainers), MapContainers(pod.initContainers, Mounted));
    ReadFront(Injected(cfg.injection.containers, PATH_CONTAINERS, pod.containers, ctx),
      MountedDocs(OwnDocs(cfg, doc, pod, ctx), OwnContainers(cfg, pod, ctx)),
      MapContainers(OwnContainers(cfg, pod, ctx), Mounted));
  }

  lemma IntendedGrown(cfg: VSIConfig, doc: Json, pod: Pod, ctx: InjectionContext)
    requires Submitted(doc, pod)
    ensures HasObject(doc, "spec")
    ensures Grown(doc, IntendedInits(cfg, doc, pod, ctx), IntendedContainers(cfg, doc, pod, ctx),
                  IntendedVolumes(cfg, doc, pod))
  {
    SubmittedArrays(doc, pod);
  }

  /** The mutated document reads as the intended pod. */
  lemma ReadMutated(cfg: VSIConfig, doc: Json, pod: Pod, ctx: InjectionContext)
    requires ValidConfig(cfg) && Submitted(doc, pod) && Annotated(doc, pod.annotations)
    ensures ReadPod(MutatedDoc(cfg, doc, pod, ctx)) == Some(MutatedPod(cfg, pod, ctx))
  {
    ReadIntended(cfg, doc, pod, ctx);
    ReadAddedVolumes(cfg, doc, pod);
    SubmittedVolumes(doc, pod);
    IntendedGrown(cfg, doc, pod, ctx);
    ReadView(doc, IntendedInits(cfg, doc, pod, ctx), IntendedContainers(cfg, doc, pod, ctx),
      IntendedVolumes(cfg, doc, pod));
    ReadNewAnnotations(cfg, doc, pod);
    IntendedMetadata(cfg, doc, pod, ctx, pod.annotations);
    ReadAssembled(doc, pod, IntendedDoc(cfg, doc, pod, ctx), NewAnnotations(cfg, doc, pod), MutatedPod(cfg, pod, ctx));
  }

  /** The parts of a pod read from its metadata. */
  predicate ReadsMeta(meta: Fields, pod: Pod) {
    && ReadStr(meta, "name") == Some(pod.name)
    && ReadStr(meta, "namespace") == Some(pod.namespace)
    && ReadObj(meta, "labels").Some?
    && ReadTextMap(ReadObj(meta, "labels").value) == Some(pod.labels)
    && ReadObj(meta, "annotations").Some?
    && ReadTextMap(ReadObj(meta, "annotations").value) == Some(pod.annotations)
  }

  lemma MetaRead(doc: Json, pod: Pod)
    requires ReadPod(doc) == Some(pod) && HasObject(doc, "metadata")
    ensures ReadsMeta(doc.fields["metadata"].fields, pod)
  {
  }

  lemma PodRead(d: Json, pod: Pod)
    requires HasObject(d, "spec") && HasObject(d, "metadata")
    requires ReadsMeta(d.fields["metadata"].fields, pod)
    requires ReadContainers(Spec(d), "initContainers") == Some(pod.initContainers)
    requires ReadContainers(Spec(d), "containers") == Some(pod.containers)
    requires ReadVolumes(Spec(d)) == Some(pod.volumes)
    ensures ReadPod(d) == Some(pod)
  {
  }

  /** Reading a document that differs from a readable one in its spec arrays and its annotations. */
  lemma ReadAssembled(doc: Json, pod: Pod, d: Json, annotations: Fields, goal: Pod)
    requires Submitted(doc, pod) && Annotated(doc, pod.annotations)
    requires HasObject(d, "spec") && HasObject(d, "metadata") && d.fields["metadata"] == doc.fields["metadata"]
    requires ReadTextMap(annotations) == Some(goal.annotations)
    requires ReadContainers(Spec(d), "initContainers") == Some(goal.initContainers)
    requires ReadContainers(Spec(d), "containers") == Some(goal.containers)
    requires ReadVolumes(Spec(d)) == Some(goal.volumes)
    requires goal.name == pod.name && goal.namespace == pod.namespace && goal.labels == pod.labels
    ensures ReadPod(WithAnnotations(d, annotations)) == Some(goal)
  {
    MetaRead(doc, pod);
    MetaUpdated(doc.fields["metadata"].fields, pod, annotations, goal);
    PodRead(WithAnnotations(d, annotations), goal);
  }

  lemma MetaUpdated(meta: Fields, pod: Pod, annotations: Fields, goal: Pod)
    requires ReadsMeta(meta, pod) && ReadTextMap(annotations) == Some(goal.annotations)
    requires goal.name == pod.name && goal.namespace == pod.namespace && goal.labels == pod.labels
    ensures ReadsMeta(meta["annotations" := Obj(annotations)], goal)
  {
  }

  /* ---------- Idempotence ---------- */

  lemma StatusRecorded(cfg: VSIConfig, pod: Pod)
    ensures Annotation(cfg, NewAnnotationTexts(cfg, pod), STATUS_KEY) == STATUS_INJECTED
    ensures ToLower(STATUS_INJECTED) == STATUS_INJECTED
  {
  }

  /** Applying the response gives a pod that needs no mutation, so a second review allows it unpatched. */
  lemma Idempotence(cfg: VSIConfig, doc: Json, pod: Pod)
    requires ValidConfig(cfg) && ReadPod(doc) == Some(pod) && StatusPatchable(cfg, pod)
    requires Respond(cfg, doc).patch.Some?
    ensures ApplyAll(doc, Respond(cfg, doc).patch.value).Some?
    ensures Respond(cfg, ApplyAll(doc, Respond(cfg, doc).patch.value).value) == Response(true, None, None)
  {
    ResponseApplies(cfg, doc, pod);
    var ctx := ContextFor(cfg, pod).value;
    ReadMutated(cfg, doc, pod, ctx);
    StatusRecorded(cfg, pod);
    NoSecondMutation(cfg, MutatedDoc(cfg, doc, pod, ctx), MutatedPod(cfg, pod, ctx));
  }

  lemma NoSecondMutation(cfg: VSIConfig, doc: Json, pod: Pod)
    requires ReadPod(doc) == Some(pod)
    requires ToLower(Annotation(cfg, pod.annotations, STATUS_KEY)) == STATUS_INJECTED
    ensures Respond(cfg, doc) == Response(true, None, None)
  {
  }

  /* ---------- Acceptance ---------- */

  /** What a review answers without a patch: an error on an unreadable pod, nothing when the pod is in a
      system namespace, is injected already or does not ask for it, and only then. */
  lemma Policy(cfg: VSIConfig, doc: Json)
    ensures ReadPod(doc).None? ==> Respond(cfg, doc) == Response(false, None, Some(MalformedPod))
    ensures ReadPod(doc).Some? ==>
      var pod := ReadPod(doc).value;
      (Respond(cfg, doc) == Response(true, None, None) <==>
       || pod.namespace == "kube-system" || pod.namespace == "kube-public"
       || ToLower(Raw(cfg, pod.annotations, "status")) == "injected"
       || ToLower(Raw(cfg, pod.annotations, "inject")) !in {"y", "yes", "true", "on"})
  {
    if ReadPod(doc).Some? {
      PolicyIs(cfg, ReadPod(doc).value);
    }
  }

  /** A pod to be mutated is rejected exactly when some reason holds; the error is a first reason in the
      order of the checks, and a rejection carries no patch. */
  lemma Acceptance(cfg: VSIConfig, doc: Json, pod: Pod)
    requires ReadPod(doc) == Some(pod) && ToMutate(cfg, pod)
    ensures Respond(cfg, doc).allowed <==> forall e :: !Reason(cfg, pod, e)
    ensures Respond(cfg, doc).allowed <==> Respond(cfg, doc).patch.Some?
    ensures Respond(cfg, doc).allowed <==> Respond(cfg, doc).error.None?
    ensures Respond(cfg, doc).error.Some? ==>
      Reason(cfg, pod, Respond(cfg, doc).error.value)
      && NoneBefore(cfg, pod, Rank(Respond(cfg, doc).error.value))
  {
    PolicyIs(cfg, pod);
    ErrorFirst(cfg, pod);
    ResponseIs(cfg, doc, pod);
    RanksBounded(cfg, pod);
  }

  lemma ResponseIs(cfg: VSIConfig, doc: Json, pod: Pod)
    requires ReadPod(doc) == Some(pod) && MutationRequired(cfg, pod)
    ensures match PodPatch(cfg, pod)
      case Failure(e) => Respond(cfg, doc) == Response(false, None, Some(e))
      case Success(_) => FullPatch(cfg, pod).Success?
                         && Respond(cfg, doc) == Response(true, Some(FullPatch(cfg, pod).value), None)
  {
  }

  lemma RanksBounded(cfg: VSIConfig, pod: Pod)
    ensures NoneBefore(cfg, pod, 16) ==> forall e :: !Reason(cfg, pod, e)
  {
    forall e
      ensures Rank(e) < 16
    {
    }
  }
}
