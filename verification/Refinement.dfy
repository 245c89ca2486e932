/** The patch refines the intended mutation: applied operation by operation to the submitted document,
    it never fails and gives exactly the document with the injected containers in front, the volumes
    and mounts added once, the pod's own containers rewritten and everything else untouched. */
module Refinement {
  import opened Text
  import opened JsonPatch
  import opened Manifest
  import opened Config
  import opened Secrets
  import opened PodUpdate

  /* ---------- What happens to the pod's own containers ---------- */

  datatype OwnChange = Untouched | Hook(command: seq<string>) | Wrap

  function ChangeFor(cfg: VSIConfig, pod: Pod, ctx: InjectionContext): OwnChange {
    if !Enabled(ctx, SECRETS) then Untouched
    else if IsSecretsStatic(ctx) then if IsSecretsInjectionEnv(ctx) then Wrap else Untouched
    else if Affirmative(Annotation(cfg, pod.annotations, SECRETS_HOOK_KEY)) && cfg.postStart.Some?
         && cfg.postStart.value.exec.Some?
    then Hook(cfg.postStart.value.exec.value)
    else Untouched
  }

  function Rewritten(change: OwnChange, c: Container): Container {
    match change
    case Untouched => c
    case Hook(command) => Normal(Hooked(c, command))
    case Wrap => if c.command.Some? then c.(command := Some(WrappedCommand(c, c.command.value))) else c
  }

  function RewrittenDoc(change: OwnChange, raw: Json, c: Container): Json
    requires raw.Obj?
  {
    match change
    case Untouched => raw
    case Hook(command) => WriteContainer(Hooked(c, command))
    case Wrap =>
      if c.command.Some? then Obj(raw.fields["command" := WriteCommand(WrappedCommand(c, c.command.value))]) else raw
  }

  function Mounted(c: Container): Container {
    if HasSecretsMount(c) then c else c.(volumeMounts := c.volumeMounts + [SECRETS_MOUNT])
  }

  function MountedDoc(raw: Json, c: Container): Json
    requires raw.Obj?
  {
    if HasSecretsMount(c) then raw
    else Obj(PutItems(raw.fields, "volumeMounts", Items(raw.fields, "volumeMounts") + [WriteMount(SECRETS_MOUNT)]))
  }

  /** The documents are those of the containers. */
  predicate Represent(items: seq<Json>, cs: seq<Container>) {
    && |items| == |cs|
    && forall i :: 0 <= i < |cs| ==> items[i].Obj? && ReadContainer(items[i]) == Some(cs[i])
  }

  function RewrittenDocs(change: OwnChange, items: seq<Json>, cs: seq<Container>): seq<Json>
    requires Represent(items, cs)
  {
    seq(|cs|, i requires 0 <= i < |cs| => RewrittenDoc(change, items[i], cs[i]))
  }

  function MountedDocs(items: seq<Json>, cs: seq<Container>): seq<Json>
    requires Represent(items, cs)
  {
    seq(|cs|, i requires 0 <= i < |cs| => MountedDoc(items[i], cs[i]))
  }

  function MapContainers(cs: seq<Container>, f: Container -> Container): seq<Container> {
    seq(|cs|, i requires 0 <= i < |cs| => f(cs[i]))
  }

  /* ---------- Single edits ---------- */

  lemma HookedValid(c: Container, command: seq<string>)
    requires ValidContainer(c)
    ensures ValidContainer(Hooked(c, command))
  {
  }

  lemma RewriteStep(change: OwnChange, raw: Json, c: Container)
    requires raw.Obj? && ReadContainer(raw) == Some(c)
    ensures ReadContainer(RewrittenDoc(change, raw, c)) == Some(Rewritten(change, c))
    ensures Rewritten(change, c).volumeMounts == c.volumeMounts && Rewritten(change, c).name == c.name
    ensures RewrittenDoc(change, raw, c).Obj?
  {
    ReadContainerValid(raw);
    match change
    case Untouched =>
    case Hook(command) =>
      HookedValid(c, command);
      ReadWriteContainer(Hooked(c, command));
    case Wrap =>
      if c.command.Some? {
        ReadWithCommand(raw, WrappedCommand(c, c.command.value));
      }
  }

  lemma MountStep(raw: Json, c: Container)
    requires raw.Obj? && ReadContainer(raw) == Some(c)
    ensures ReadContainer(MountedDoc(raw, c)) == Some(Mounted(c))
  {
    if !HasSecretsMount(c) {
      assert ValidMount(SECRETS_MOUNT);
      ReadWithMount(raw, SECRETS_MOUNT);
    }
  }

  lemma CommandPresent(raw: Json, c: Container)
    requires raw.Obj? && ReadContainer(raw) == Some(c) && c.command.Some?
    ensures "command" in raw.fields
  {
  }

  lemma MountsPresent(raw: Json, c: Container)
    requires raw.Obj? && ReadContainer(raw) == Some(c)
    ensures |Items(raw.fields, "volumeMounts")| == |c.volumeMounts|
    ensures c.volumeMounts != [] ==> "volumeMounts" in raw.fields && raw.fields["volumeMounts"].Arr?
  {
  }

  lemma PointerOf(p: string, t: string)
    requires Plain(t) && p == "/" + t
    ensures ParsePointer(p) == Some([t])
  {
    PointerOne(t);
  }

  lemma PointerOfEnd(p: string, t: string)
    requires Plain(t) && p == "/" + t + "/-"
    ensures ParsePointer(p) == Some([t, "-"])
  {
    PointerOne(t);
    PointerSnoc("/" + t, "-");
    assert p == "/" + t + "/" + "-";
    assert [t] + ["-"] == [t, "-"];
  }

  lemma CommandPointer()
    ensures ParsePointer("/command") == Some(["command"])
  {
    PointerOf("/command", "command");
  }

  lemma MountsPointer()
    ensures ParsePointer("/volumeMounts") == Some(["volumeMounts"])
  {
    PointerOf("/volumeMounts", "volumeMounts");
  }

  lemma MountsEndPointer()
    ensures ParsePointer("/volumeMounts/-") == Some(["volumeMounts", "-"])
  {
    PointerOfEnd("/volumeMounts/-", "volumeMounts");
  }

  lemma WrapEdits(raw: Json, c: Container)
    requires raw.Obj? && ReadContainer(raw) == Some(c)
    ensures Edits(WrapEdit(c), raw, RewrittenDoc(Wrap, raw, c))
  {
    if c.command.Some? {
      CommandPresent(raw, c);
      ReplaceCommand(raw, c, c.command.value);
    }
  }

  lemma ReplaceCommand(raw: Json, c: Container, command: seq<string>)
    requires raw.Obj? && "command" in raw.fields && c.command == Some(command)
    ensures Edits(WrapEdit(c), raw, Obj(raw.fields["command" := WriteCommand(WrappedCommand(c, command))]))
  {
    CommandPointer();
  }

  lemma HookEdits(raw: Json, c: Container, command: seq<string>)
    requires raw.Obj?
    ensures Edits(HookEdit(command)(c), raw, RewrittenDoc(Hook(command), raw, c))
  {
  }

  lemma MountEdits(raw: Json, c: Container, d: Container)
    requires raw.Obj? && ReadContainer(raw) == Some(c) && c.volumeMounts == d.volumeMounts
    ensures Edits(MountEdit(d), raw, MountedDoc(raw, c))
  {
    MountsPresent(raw, c);
    AddMount(raw, c, d);
  }

  lemma AddMount(raw: Json, c: Container, d: Container)
    requires raw.Obj? && c.volumeMounts == d.volumeMounts
    requires |Items(raw.fields, "volumeMounts")| == |c.volumeMounts|
    requires c.volumeMounts != [] ==> "volumeMounts" in raw.fields && raw.fields["volumeMounts"].Arr?
    ensures Edits(MountEdit(d), raw, MountedDoc(raw, c))
  {
    if c.volumeMounts == [] {
      MountsPointer();
      assert [] + [WriteMount(SECRETS_MOUNT)] == [WriteMount(SECRETS_MOUNT)];
    } else {
      MountsEndPointer();
      AppendMember(raw, "volumeMounts", WriteMount(SECRETS_MOUNT));
    }
  }

  lemma AppendMember(doc: Json, key: string, value: Json)
    requires doc.Obj? && key in doc.fields && doc.fields[key].Arr?
    ensures ApplyAt(OP_ADD, doc, [key, "-"], value) ==
            Some(Obj(doc.fields[key := Arr(doc.fields[key].items + [value])]))
  {
    assert [key, "-"][1..] == ["-"];
  }

  /* ---------- The three arrays of the document ---------- */

  function View(doc: Json, inits: seq<Json>, cnts: seq<Json>, vols: seq<Json>): Json
    requires HasObject(doc, "spec")
  {
    WithItems(WithItems(WithItems(doc, "initContainers", inits), "containers", cnts), "volumes", vols)
  }

  /** The new contents are empty only where the document's own are. */
  predicate Grown(doc: Json, inits: seq<Json>, cnts: seq<Json>, vols: seq<Json>)
    requires HasObject(doc, "spec")
  {
    && (inits == [] ==> Items(Spec(doc), "initContainers") == [])
    && (cnts == [] ==> Items(Spec(doc), "containers") == [])
    && (vols == [] ==> Items(Spec(doc), "volumes") == [])
  }

  lemma ViewHolds(doc: Json, inits: seq<Json>, cnts: seq<Json>, vols: seq<Json>)
    requires HasObject(doc, "spec") && Grown(doc, inits, cnts, vols)
    ensures Holds(View(doc, inits, cnts, vols), "initContainers", inits)
    ensures Holds(View(doc, inits, cnts, vols), "containers", cnts)
    ensures Holds(View(doc, inits, cnts, vols), "volumes", vols)
  {
    var d1 := WithItems(doc, "initContainers", inits);
    var d2 := WithItems(d1, "containers", cnts);
    WithItemsHolds(doc, "initContainers", inits, "containers");
    WithItemsHolds(doc, "initContainers", inits, "volumes");
    WithItemsHolds(d1, "containers", cnts, "initContainers");
    WithItemsHolds(d1, "containers", cnts, "volumes");
    WithItemsHolds(d2, "volumes", vols, "initContainers");
    WithItemsHolds(d2, "volumes", vols, "containers");
  }

  lemma ViewSelf(doc: Json)
    requires HasObject(doc, "spec")
    ensures View(doc, Items(Spec(doc), "initContainers"), Items(Spec(doc), "containers"),
                 Items(Spec(doc), "volumes")) == doc
  {
    WithItemsHolds(doc, "initContainers", Items(Spec(doc), "initContainers"), "initContainers");
    WithItemsHolds(doc, "containers", Items(Spec(doc), "containers"), "containers");
    WithItemsHolds(doc, "volumes", Items(Spec(doc), "volumes"), "volumes");
  }

  lemma SetVolumes(doc: Json, inits: seq<Json>, cnts: seq<Json>, vols: seq<Json>, vols': seq<Json>)
    requires HasObject(doc, "spec") && (vols' == [] ==> vols == [])
    ensures WithItems(View(doc, inits, cnts, vols), "volumes", vols') == View(doc, inits, cnts, vols')
  {
    WithItemsTwice(WithItems(WithItems(doc, "initContainers", inits), "containers", cnts), "volumes", vols, vols');
  }

  lemma WithItemsSwap(doc: Json, a: string, x: seq<Json>, b: string, y: seq<Json>)
    requires HasObject(doc, "spec") && a != b
    ensures WithItems(WithItems(doc, a, x), b, y) == WithItems(WithItems(doc, b, y), a, x)
  {
    var p, q := WithItems(WithItems(doc, a, x), b, y), WithItems(WithItems(doc, b, y), a, x);
    assert Spec(p) == PutItems(PutItems(Spec(doc), a, x), b, y);
    assert Spec(p) == Spec(q);
    assert p.fields == q.fields;
  }

  lemma SetContainers(doc: Json, inits: seq<Json>, cnts: seq<Json>, vols: seq<Json>, cnts': seq<Json>)
    requires HasObject(doc, "spec") && (cnts' == [] ==> cnts == [])
    ensures WithItems(View(doc, inits, cnts, vols), "containers", cnts') == View(doc, inits, cnts', vols)
  {
    var d := WithItems(doc, "initContainers", inits);
    WithItemsSwap(WithItems(d, "containers", cnts), "volumes", vols, "containers", cnts');
    WithItemsTwice(d, "containers", cnts, cnts');
  }

  lemma SetInits(doc: Json, inits: seq<Json>, cnts: seq<Json>, vols: seq<Json>, inits': seq<Json>)
    requires HasObject(doc, "spec") && (inits' == [] ==> inits == [])
    ensures WithItems(View(doc, inits, cnts, vols), "initContainers", inits') == View(doc, inits', cnts, vols)
  {
    var d := WithItems(doc, "initContainers", inits);
    WithItemsSwap(WithItems(d, "containers", cnts), "volumes", vols, "initContainers", inits');
    WithItemsSwap(d, "containers", cnts, "initContainers", inits');
    WithItemsTwice(doc, "initContainers", inits, inits');
  }

  /* ---------- The stages of the patch ---------- */

  /** The arrays of the submitted document with the containers they stand for. */
  predicate Submitted(doc: Json, pod: Pod) {
    && ReadPod(doc) == Some(pod)
    && pod.containers != []
  }

  lemma SubmittedArrays(doc: Json, pod: Pod)
    requires Submitted(doc, pod)
    ensures HasObject(doc, "spec")
    ensures Represent(Items(Spec(doc), "initContainers"), pod.initContainers)
    ensures Represent(Items(Spec(doc), "containers"), pod.containers)
    ensures |Items(Spec(doc), "volumes")| == |pod.volumes|
  {
    var spec := ReadObj(doc.fields, "spec").value;
    assert "spec" in doc.fields && doc.fields["spec"].Obj?;
    assert ReadContainers(spec, "initContainers") == Some(pod.initContainers);
    assert ReadContainers(spec, "containers") == Some(pod.containers);
    assert ReadVolumes(spec) == Some(pod.volumes);
  }

  lemma OwnEdits(change: OwnChange, items: seq<Json>, cs: seq<Container>) returns (edits: seq<Edit>)
    requires Represent(items, cs)
    ensures |edits| == |cs|
    ensures forall i :: 0 <= i < |cs| ==> Edits(edits[i], items[i], RewrittenDocs(change, items, cs)[i])
    ensures change == Wrap ==> edits == EditAll(cs, WrapEdit)
    ensures change.Hook? ==> edits == EditAll(cs, HookEdit(change.command))
    ensures change == Untouched ==> forall i :: 0 <= i < |cs| ==> edits[i].Keep?
  {
    match change
    case Untouched => edits := seq(|cs|, _ => Keep);
    case Wrap =>
      edits := EditAll(cs, WrapEdit);
      forall i | 0 <= i < |cs| { WrapEdits(items[i], cs[i]); }
    case Hook(command) =>
      edits := EditAll(cs, HookEdit(command));
      forall i | 0 <= i < |cs| { HookEdits(items[i], cs[i], command); }
  }

  /** The array reached after the first n edits. */
  function Mixed(goal: seq<Json>, items: seq<Json>, n: nat): seq<Json>
    requires n <= |goal| == |items|
  {
    goal[..n] + items[n..]
  }

  predicate EditsTo(edits: seq<Edit>, items: seq<Json>, goal: seq<Json>) {
    && |edits| == |items| == |goal|
    && forall i :: 0 <= i < |items| ==> Edits(edits[i], items[i], goal[i])
  }

  lemma EditContainers(
    doc: Json, inits: seq<Json>, cnts: seq<Json>, vols: seq<Json>, edits: seq<Edit>, goal: seq<Json>, n: nat)
    requires HasObject(doc, "spec") && Grown(doc, inits, cnts, vols)
    requires EditsTo(edits, cnts, goal) && n <= |edits|
    ensures ApplyAll(View(doc, inits, cnts, vols), EditOps(PATH_CONTAINERS, edits[..n])) ==
            Some(View(doc, inits, Mixed(goal, cnts, n), vols))
  {
    ViewHolds(doc, inits, cnts, vols);
    assert PATH_CONTAINERS == SpecPath("containers");
    ApplyEdits(View(doc, inits, cnts, vols), "containers", cnts, edits[..n], goal);
    SetContainers(doc, inits, cnts, vols, Mixed(goal, cnts, n));
  }

  lemma EditInits(
    doc: Json, inits: seq<Json>, cnts: seq<Json>, vols: seq<Json>, edits: seq<Edit>, goal: seq<Json>, n: nat)
    requires HasObject(doc, "spec") && Grown(doc, inits, cnts, vols)
    requires EditsTo(edits, inits, goal) && n <= |edits|
    ensures ApplyAll(View(doc, inits, cnts, vols), EditOps(PATH_INIT_CONTAINERS, edits[..n])) ==
            Some(View(doc, Mixed(goal, inits, n), cnts, vols))
  {
    ViewHolds(doc, inits, cnts, vols);
    assert PATH_INIT_CONTAINERS == SpecPath("initContainers");
    ApplyEdits(View(doc, inits, cnts, vols), "initContainers", inits, edits[..n], goal);
    SetInits(doc, inits, cnts, vols, Mixed(goal, inits, n));
  }

  lemma AppendVolumes(
    doc: Json, inits: seq<Json>, cnts: seq<Json>, vols: seq<Json>, values: seq<Json>, n: nat)
    requires HasObject(doc, "spec") && Grown(doc, inits, cnts, vols) && n <= |values|
    ensures ApplyAll(View(doc, inits, cnts, vols), AppendOps(PATH_VOLUMES, vols == [], values)[..n]) ==
            Some(View(doc, inits, cnts, vols + values[..n]))
  {
    ViewHolds(doc, inits, cnts, vols);
    assert PATH_VOLUMES == SpecPath("volumes");
    ApplyAppends(View(doc, inits, cnts, vols), "volumes", vols, vols == [], values, n);
    SetVolumes(doc, inits, cnts, vols, vols + values[..n]);
  }

  lemma InsertContainers(doc: Json, inits: seq<Json>, cnts: seq<Json>, vols: seq<Json>, values: seq<Json>)
    requires HasObject(doc, "spec") && Grown(doc, inits, cnts, vols) && cnts != []
    ensures ApplyAll(View(doc, inits, cnts, vols), InsertOps(PATH_CONTAINERS, false, values)) ==
            Some(View(doc, inits, values + cnts, vols))
  {
    ViewHolds(doc, inits, cnts, vols);
    assert PATH_CONTAINERS == SpecPath("containers");
    ApplyInserts(View(doc, inits, cnts, vols), "containers", cnts, false, values);
    SetContainers(doc, inits, cnts, vols, values + cnts);
  }

  lemma InsertInits(doc: Json, inits: seq<Json>, cnts: seq<Json>, vols: seq<Json>, values: seq<Json>)
    requires HasObject(doc, "spec") && Grown(doc, inits, cnts, vols)
    ensures ApplyAll(View(doc, inits, cnts, vols), InsertOps(PATH_INIT_CONTAINERS, inits == [], values)) ==
            Some(View(doc, values + inits, cnts, vols))
  {
    ViewHolds(doc, inits, cnts, vols);
    assert PATH_INIT_CONTAINERS == SpecPath("initContainers");
    ApplyInserts(View(doc, inits, cnts, vols), "initContainers", inits, inits == [], values);
    SetInits(doc, inits, cnts, vols, values + inits);
  }

  /* ---------- Edits of the two container arrays ---------- */

  lemma {:induction false} KeepOps(base: string, edits: seq<Edit>)
    requires forall i :: 0 <= i < |edits| ==> edits[i].Keep?
    ensures EditOps(base, edits) == []
  {
    if edits != [] {
      KeepOps(base, edits[..|edits| - 1]);
    }
  }

  lemma OwnPatchEdits(cfg: VSIConfig, pod: Pod, ctx: InjectionContext, items: seq<Json>) returns (edits: seq<Edit>)
    requires Represent(items, pod.containers)
    requires OwnContainersPatch(cfg, pod, ctx).Success?
    ensures EditsTo(edits, items, RewrittenDocs(ChangeFor(cfg, pod, ctx), items, pod.containers))
    ensures OwnContainersPatch(cfg, pod, ctx).value == EditOps(PATH_CONTAINERS, edits)
  {
    var change := ChangeFor(cfg, pod, ctx);
    edits := OwnEdits(change, items, pod.containers);
    if change == Untouched {
      KeepOps(PATH_CONTAINERS, edits);
    }
  }

  lemma RewrittenRepresent(change: OwnChange, items: seq<Json>, cs: seq<Container>)
    requires Represent(items, cs)
    ensures Represent(RewrittenDocs(change, items, cs), MapContainers(cs, c => Rewritten(change, c)))
    ensures forall i :: 0 <= i < |cs| ==>
      Rewritten(change, cs[i]).volumeMounts == cs[i].volumeMounts && Rewritten(change, cs[i]).name == cs[i].name
  {
    forall i | 0 <= i < |cs| { RewriteStep(change, items[i], cs[i]); }
  }

  lemma MountedRepresent(items: seq<Json>, cs: seq<Container>)
    requires Represent(items, cs)
    ensures Represent(MountedDocs(items, cs), MapContainers(cs, Mounted))
  {
    forall i | 0 <= i < |cs| { MountStep(items[i], cs[i]); }
  }

  /** The mount edits are computed from the submitted containers and still fit the rewritten ones. */
  lemma MountEditsTo(items: seq<Json>, now: seq<Container>, submitted: seq<Container>)
    requires Represent(items, now) && |now| == |submitted|
    requires forall i :: 0 <= i < |now| ==> now[i].volumeMounts == submitted[i].volumeMounts
    ensures EditsTo(EditAll(submitted, MountEdit), items, MountedDocs(items, now))
  {
    forall i | 0 <= i < |now| { MountEdits(items[i], now[i], submitted[i]); }
  }

  /* ---------- The intended document ---------- */

  function OwnDocs(cfg: VSIConfig, doc: Json, pod: Pod, ctx: InjectionContext): seq<Json>
    requires Submitted(doc, pod)
  {
    SubmittedArrays(doc, pod);
    RewrittenDocs(ChangeFor(cfg, pod, ctx), Items(Spec(doc), "containers"), pod.containers)
  }

  function OwnContainers(cfg: VSIConfig, pod: Pod, ctx: InjectionContext): seq<Container> {
    MapContainers(pod.containers, c => Rewritten(ChangeFor(cfg, pod, ctx), c))
  }

  function IntendedInits(cfg: VSIConfig, doc: Json, pod: Pod, ctx: InjectionContext): seq<Json>
    requires Submitted(doc, pod)
  {
    SubmittedArrays(doc, pod);
    WriteAll(Injected(cfg.injection.initContainers, PATH_INIT_CONTAINERS, pod.initContainers, ctx), WriteContainer)
    + MountedDocs(Items(Spec(doc), "initContainers"), pod.initContainers)
  }

  function IntendedContainers(cfg: VSIConfig, doc: Json, pod: Pod, ctx: InjectionContext): seq<Json>
    requires Submitted(doc, pod)
  {
    SubmittedArrays(doc, pod);
    RewrittenRepresent(ChangeFor(cfg, pod, ctx), Items(Spec(doc), "containers"), pod.containers);
    WriteAll(Injected(cfg.injection.containers, PATH_CONTAINERS, pod.containers, ctx), WriteContainer)
    + MountedDocs(OwnDocs(cfg, doc, pod, ctx), OwnContainers(cfg, pod, ctx))
  }

  function IntendedVolumes(cfg: VSIConfig, doc: Json, pod: Pod): seq<Json>
    requires HasObject(doc, "spec")
  {
    Items(Spec(doc), "volumes") + WriteAll(AddedVolumes(cfg.injection.volumes, pod.volumes), WriteVolume)
  }

  /** The submitted document with the three arrays replaced and nothing else changed. */
  function IntendedDoc(cfg: VSIConfig, doc: Json, pod: Pod, ctx: InjectionContext): Json
    requires Submitted(doc, pod)
  {
    SubmittedArrays(doc, pod);
    View(doc, IntendedInits(cfg, doc, pod, ctx), IntendedContainers(cfg, doc, pod, ctx), IntendedVolumes(cfg, doc, pod))
  }

  /* ---------- The stages, composed ---------- */

  /** The arrays after the pod's own containers are patched and the mounts added. */
  lemma OwnAndMounts(cfg: VSIConfig, doc: Json, pod: Pod, ctx: InjectionContext)
    requires Submitted(doc, pod) && OwnContainersPatch(cfg, pod, ctx).Success?
    ensures HasObject(doc, "spec") && Represent(Items(Spec(doc), "initContainers"), pod.initContainers)
    ensures Represent(OwnDocs(cfg, doc, pod, ctx), OwnContainers(cfg, pod, ctx))
    ensures ApplyAll(doc, OwnContainersPatch(cfg, pod, ctx).value
                     + MountOps(pod.initContainers, PATH_INIT_CONTAINERS)
                     + MountOps(pod.containers, PATH_CONTAINERS)) ==
            Some(View(doc, MountedDocs(Items(Spec(doc), "initContainers"), pod.initContainers),
                      MountedDocs(OwnDocs(cfg, doc, pod, ctx), OwnContainers(cfg, pod, ctx)),
                      Items(Spec(doc), "volumes")))
  {
    SubmittedArrays(doc, pod);
    var inits, cnts, vols := Items(Spec(doc), "initContainers"),
                             Items(Spec(doc), "containers"), Items(Spec(doc), "volumes");
    var own, owned := OwnDocs(cfg, doc, pod, ctx), OwnContainers(cfg, pod, ctx);
    var ops1 := OwnContainersPatch(cfg, pod, ctx).value;
    var ops2, ops3 := MountOps(pod.initContainers, PATH_INIT_CONTAINERS), MountOps(pod.containers, PATH_CONTAINERS);
    RewrittenRepresent(ChangeFor(cfg, pod, ctx), cnts, pod.containers);
    ViewSelf(doc);
    var edits := OwnPatchEdits(cfg, pod, ctx, cnts);
    EditWhole(edits, cnts, own);
    EditContainers(doc, inits, cnts, vols, edits, own, |edits|);
    var goalInits := MountedDocs(inits, pod.initContainers);
    MountEditsTo(inits, pod.initContainers, pod.initContainers);
    EditWhole(EditAll(pod.initContainers, MountEdit), inits, goalInits);
    EditInits(doc, inits, own, vols, EditAll(pod.initContainers, MountEdit), goalInits, |inits|);
    var goalCnts := MountedDocs(own, owned);
    MountEditsTo(own, owned, pod.containers);
    EditWhole(EditAll(pod.containers, MountEdit), own, goalCnts);
    EditContainers(doc, goalInits, own, vols, EditAll(pod.containers, MountEdit), goalCnts, |own|);
    ApplyAppend(doc, ops1, ops2);
    ApplyAppend(doc, ops1 + ops2, ops3);
  }

  lemma EditWhole(edits: seq<Edit>, items: seq<Json>, goal: seq<Json>)
    requires EditsTo(edits, items, goal)
    ensures edits[..|edits|] == edits && Mixed(goal, items, |items|) == goal
  {
  }

  /** The three injection stages over any contents of the arrays. */
  lemma InjectionStages(
    doc: Json, inits: seq<Json>, cnts: seq<Json>, vols: seq<Json>,
    added: seq<Json>, injectedInits: seq<Json>, injected: seq<Json>)
    requires HasObject(doc, "spec") && Grown(doc, inits, cnts, vols) && cnts != []
    ensures ApplyAll(View(doc, inits, cnts, vols),
              AppendOps(PATH_VOLUMES, vols == [], added)
              + InsertOps(PATH_INIT_CONTAINERS, inits == [], injectedInits)
              + InsertOps(PATH_CONTAINERS, false, injected)) ==
            Some(View(doc, injectedInits + inits, injected + cnts, vols + added))
  {
    var d := View(doc, inits, cnts, vols);
    var ops2 := AppendOps(PATH_VOLUMES, vols == [], added);
    var ops3 := InsertOps(PATH_INIT_CONTAINERS, inits == [], injectedInits);
    AppendVolumes(doc, inits, cnts, vols, added, |added|);
    assert ops2[..|added|] == ops2 && added[..|added|] == added;
    InsertInits(doc, inits, cnts, vols + added, injectedInits);
    InsertContainers(doc, injectedInits + inits, cnts, vols + added, injected);
    ApplyAppend(d, ops2, ops3);
    ApplyAppend(d, ops2 + ops3, InsertOps(PATH_CONTAINERS, false, injected));
  }

  function EditStages(cfg: VSIConfig, pod: Pod, ctx: InjectionContext): seq<PatchOp>
    requires OwnContainersPatch(cfg, pod, ctx).Success?
  {
    OwnContainersPatch(cfg, pod, ctx).value
    + MountOps(pod.initContainers, PATH_INIT_CONTAINERS) + MountOps(pod.containers, PATH_CONTAINERS)
  }

  function InjectStages(cfg: VSIConfig, pod: Pod, ctx: InjectionContext): seq<PatchOp> {
    VolumeOps(cfg.injection.volumes, pod.volumes)
    + ContainerOps(cfg.injection.initContainers, PATH_INIT_CONTAINERS, pod.initContainers, ctx)
    + ContainerOps(cfg.injection.containers, PATH_CONTAINERS, pod.containers, ctx)
  }

  lemma PatchStages(cfg: VSIConfig, pod: Pod)
    requires PodPatch(cfg, pod).Success?
    ensures ContextFor(cfg, pod).Success? && OwnContainersPatch(cfg, pod, ContextFor(cfg, pod).value).Success?
    ensures PodPatch(cfg, pod).value ==
            EditStages(cfg, pod, ContextFor(cfg, pod).value) + InjectStages(cfg, pod, ContextFor(cfg, pod).value)
  {
    var ctx := ContextFor(cfg, pod).value;
    Regroup(OwnContainersPatch(cfg, pod, ctx).value, MountOps(pod.initContainers, PATH_INIT_CONTAINERS),
      MountOps(pod.containers, PATH_CONTAINERS), VolumeOps(cfg.injection.volumes, pod.volumes),
      ContainerOps(cfg.injection.initContainers, PATH_INIT_CONTAINERS, pod.initContainers, ctx),
      ContainerOps(cfg.injection.containers, PATH_CONTAINERS, pod.containers, ctx));
  }

  lemma Regroup<T>(a: seq<T>, b: seq<T>, c: seq<T>, d: seq<T>, e: seq<T>, f: seq<T>)
    ensures a + (b + c + d) + e + f == (a + b + c) + (d + e + f)
  {
  }

  /** Patch refinement: every operation applies, and together they give exactly the intended document. */
  lemma PatchRefinement(cfg: VSIConfig, doc: Json, pod: Pod)
    requires Submitted(doc, pod) && PodPatch(cfg, pod).Success?
    ensures ContextFor(cfg, pod).Success?
    ensures ApplyAll(doc, PodPatch(cfg, pod).value) == Some(IntendedDoc(cfg, doc, pod, ContextFor(cfg, pod).value))
  {
    PatchStages(cfg, pod);
    var ctx := ContextFor(cfg, pod).value;
    SubmittedArrays(doc, pod);
    OwnAndMounts(cfg, doc, pod, ctx);
    InjectionStages(doc,
      MountedDocs(Items(Spec(doc), "initContainers"), pod.initContainers),
      MountedDocs(OwnDocs(cfg, doc, pod, ctx), OwnContainers(cfg, pod, ctx)),
      Items(Spec(doc), "volumes"),
      WriteAll(AddedVolumes(cfg.injection.volumes, pod.volumes), WriteVolume),
      WriteAll(Injected(cfg.injection.initContainers, PATH_INIT_CONTAINERS, pod.initContainers, ctx), WriteContainer),
      WriteAll(Injected(cfg.injection.containers, PATH_CONTAINERS, pod.containers, ctx), WriteContainer));
    ApplyAppend(doc, EditStages(cfg, pod, ctx), InjectStages(cfg, pod, ctx));
  }

  /* ---------- Index stability ---------- */

  /** The array holds one readable container per submitted one, under the submitted names, in order. */
  predicate Names(items: seq<Json>, cs: seq<Container>) {
    && |items| == |cs|
    && forall i :: 0 <= i < |cs| ==>
      items[i].Obj? && ReadContainer(items[i]).Some? && ReadContainer(items[i]).value.name == cs[i].name
  }

  predicate Stable(d: Json, pod: Pod) {
    && HasObject(d, "spec")
    && Names(Items(Spec(d), "initContainers"), pod.initContainers)
    && Names(Items(Spec(d), "containers"), pod.containers)
  }

  lemma ViewStable(doc: Json, inits: seq<Json>, cnts: seq<Json>, vols: seq<Json>, pod: Pod)
    requires HasObject(doc, "spec") && Grown(doc, inits, cnts, vols)
    requires Names(inits, pod.initContainers) && Names(cnts, pod.containers)
    ensures Stable(View(doc, inits, cnts, vols), pod)
  {
    ViewHolds(doc, inits, cnts, vols);
  }

  lemma RepresentNames(items: seq<Json>, now: seq<Container>, cs: seq<Container>)
    requires Represent(items, now) && |now| == |cs|
    requires forall i :: 0 <= i < |cs| ==> now[i].name == cs[i].name
    ensures Names(items, cs)
  {
  }

  lemma MixedNames(goal: seq<Json>, items: seq<Json>, n: nat, cs: seq<Container>)
    requires Names(goal, cs) && Names(items, cs) && n <= |cs|
    ensures Names(Mixed(goal, items, n), cs)
  {
  }

  /** The first k operations of an edit stage over the containers keep length and names. */
  lemma ContainersPrefixStable(
    doc: Json, inits: seq<Json>, cnts: seq<Json>, vols: seq<Json>, pod: Pod, edits: seq<Edit>, goal: seq<Json>, k: nat)
    requires HasObject(doc, "spec") && Grown(doc, inits, cnts, vols)
    requires Names(inits, pod.initContainers) && Names(cnts, pod.containers)
    requires EditsTo(edits, cnts, goal) && Names(goal, pod.containers)
    requires k <= |EditOps(PATH_CONTAINERS, edits)|
    ensures var d := ApplyAll(View(doc, inits, cnts, vols), EditOps(PATH_CONTAINERS, edits)[..k]);
            d.Some? && Stable(d.value, pod)
  {
    var n := EditOpsPrefix(PATH_CONTAINERS, edits, k);
    EditContainers(doc, inits, cnts, vols, edits, goal, n);
    MixedNames(goal, cnts, n, pod.containers);
    ViewStable(doc, inits, Mixed(goal, cnts, n), vols, pod);
  }

  /** The same over the init containers. */
  lemma InitsPrefixStable(
    doc: Json, inits: seq<Json>, cnts: seq<Json>, vols: seq<Json>, pod: Pod, edits: seq<Edit>, goal: seq<Json>, k: nat)
    requires HasObject(doc, "spec") && Grown(doc, inits, cnts, vols)
    requires Names(inits, pod.initContainers) && Names(cnts, pod.containers)
    requires EditsTo(edits, inits, goal) && Names(goal, pod.initContainers)
    requires k <= |EditOps(PATH_INIT_CONTAINERS, edits)|
    ensures var d := ApplyAll(View(doc, inits, cnts, vols), EditOps(PATH_INIT_CONTAINERS, edits)[..k]);
            d.Some? && Stable(d.value, pod)
  {
    var n := EditOpsPrefix(PATH_INIT_CONTAINERS, edits, k);
    EditInits(doc, inits, cnts, vols, edits, goal, n);
    MixedNames(goal, inits, n, pod.initContainers);
    ViewStable(doc, Mixed(goal, inits, n), cnts, vols, pod);
  }

  lemma PrefixSplit(doc: Json, a: seq<PatchOp>, b: seq<PatchOp>, k: nat)
    requires k <= |a + b|
    ensures k <= |a| ==> (a + b)[..k] == a[..k]
    ensures k > |a| && ApplyAll(doc, a).Some? ==>
      ApplyAll(doc, (a + b)[..k]) == ApplyAll(ApplyAll(doc, a).value, b[..k - |a|])
  {
    if k > |a| {
      assert (a + b)[..k] == a + b[..k - |a|];
      ApplyAppend(doc, a, b[..k - |a|]);
    }
  }

  /** The first k operations of the own patch; all of them leave the rewritten containers. */
  lemma OwnPrefixStable(cfg: VSIConfig, doc: Json, pod: Pod, ctx: InjectionContext, k: nat)
    requires Submitted(doc, pod) && OwnContainersPatch(cfg, pod, ctx).Success?
    requires k <= |OwnContainersPatch(cfg, pod, ctx).value|
    ensures HasObject(doc, "spec")
    ensures ApplyAll(doc, OwnContainersPatch(cfg, pod, ctx).value) ==
      Some(View(doc, Items(Spec(doc), "initContainers"), OwnDocs(cfg, doc, pod, ctx), Items(Spec(doc), "volumes")))
    ensures var d := ApplyAll(doc, OwnContainersPatch(cfg, pod, ctx).value[..k]); d.Some? && Stable(d.value, pod)
  {
    SubmittedArrays(doc, pod);
    var inits, cnts, vols := Items(Spec(doc), "initContainers"),
                             Items(Spec(doc), "containers"), Items(Spec(doc), "volumes");
    var own := OwnDocs(cfg, doc, pod, ctx);
    RewrittenRepresent(ChangeFor(cfg, pod, ctx), cnts, pod.containers);
    RepresentNames(inits, pod.initContainers, pod.initContainers);
    RepresentNames(cnts, pod.containers, pod.containers);
    RepresentNames(own, OwnContainers(cfg, pod, ctx), pod.containers);
    ViewSelf(doc);
    var edits := OwnPatchEdits(cfg, pod, ctx, cnts);
    ContainersPrefixStable(doc, inits, cnts, vols, pod, edits, own, k);
    EditWhole(edits, cnts, own);
    EditContainers(doc, inits, cnts, vols, edits, own, |edits|);
  }

  /** The first k of the own patch and the mounts, stage by stage. */
  lemma EditStagesStable(cfg: VSIConfig, doc: Json, pod: Pod, ctx: InjectionContext, k: nat)
    requires Submitted(doc, pod) && OwnContainersPatch(cfg, pod, ctx).Success?
    requires k <= |EditStages(cfg, pod, ctx)|
    ensures var d := ApplyAll(doc, EditStages(cfg, pod, ctx)[..k]);
            d.Some? && Stable(d.value, pod)
  {
    var ops1 := OwnContainersPatch(cfg, pod, ctx).value;
    var ops2, ops3 := MountOps(pod.initContainers, PATH_INIT_CONTAINERS), MountOps(pod.containers, PATH_CONTAINERS);
    PrefixSplit(doc, ops1 + ops2, ops3, k);
    if k <= |ops1| {
      PrefixSplit(doc, ops1, ops2, k);
      OwnPrefixStable(cfg, doc, pod, ctx, k);
    } else {
      MountsAfterOwn(cfg, doc, pod, ctx, k - |ops1|);
      ApplyAppend(doc, ops1, ops2);
      if k <= |ops1 + ops2| {
        PrefixSplit(doc, ops1, ops2, k);
      }
    }
  }

  lemma MountsAfterOwn(cfg: VSIConfig, doc: Json, pod: Pod, ctx: InjectionContext, k: nat)
    requires Submitted(doc, pod) && OwnContainersPatch(cfg, pod, ctx).Success?
    requires k <= |MountOps(pod.initContainers, PATH_INIT_CONTAINERS)| + |MountOps(pod.containers, PATH_CONTAINERS)|
    ensures ApplyAll(doc, OwnContainersPatch(cfg, pod, ctx).value).Some?
    ensures var ops2, ops3 := MountOps(pod.initContainers, PATH_INIT_CONTAINERS),
                              MountOps(pod.containers, PATH_CONTAINERS);
      var d := ApplyAll(doc, OwnContainersPatch(cfg, pod, ctx).value).value;
      && ApplyAll(d, ops2).Some?
      && (k <= |ops2| ==> ApplyAll(d, ops2[..k]).Some? && Stable(ApplyAll(d, ops2[..k]).value, pod))
      && (k > |ops2| ==>
            var e := ApplyAll(ApplyAll(d, ops2).value, ops3[..k - |ops2|]);
            e.Some? && Stable(e.value, pod))
  {
    SubmittedArrays(doc, pod);
    OwnPrefixStable(cfg, doc, pod, ctx, 0);
    RewrittenRepresent(ChangeFor(cfg, pod, ctx), Items(Spec(doc), "containers"), pod.containers);
    MountPrefixStable(doc, Items(Spec(doc), "initContainers"), OwnDocs(cfg, doc, pod, ctx),
      OwnContainers(cfg, pod, ctx),
      Items(Spec(doc), "volumes"), pod,
      MountOps(pod.initContainers, PATH_INIT_CONTAINERS), MountOps(pod.containers, PATH_CONTAINERS), k);
  }

  /** A mount stage has edits for every container and its goal keeps their names. */
  lemma MountNames(items: seq<Json>, now: seq<Container>, cs: seq<Container>)
    requires Represent(items, now) && |now| == |cs|
    requires forall i :: 0 <= i < |cs| ==> now[i].name == cs[i].name && now[i].volumeMounts == cs[i].volumeMounts
    ensures EditsTo(EditAll(cs, MountEdit), items, MountedDocs(items, now))
    ensures Names(items, cs) && Names(MountedDocs(items, now), cs)
  {
    MountEditsTo(items, now, cs);
    MountedRepresent(items, now);
    RepresentNames(items, now, cs);
    RepresentNames(MountedDocs(items, now), MapContainers(now, Mounted), cs);
  }

  /** The mount stages, from the document with the pod's own containers already rewritten. */
  lemma MountPrefixStable(
    doc: Json, inits: seq<Json>, own: seq<Json>, owned: seq<Container>, vols: seq<Json>, pod: Pod,
    ops2: seq<PatchOp>, ops3: seq<PatchOp>, k: nat)
    requires HasObject(doc, "spec") && Grown(doc, inits, own, vols)
    requires Represent(inits, pod.initContainers) && Represent(own, owned) && |owned| == |pod.containers|
    requires forall i :: 0 <= i < |owned| ==>
      owned[i].name == pod.containers[i].name && owned[i].volumeMounts == pod.containers[i].volumeMounts
    requires ops2 == MountOps(pod.initContainers, PATH_INIT_CONTAINERS)
      && ops3 == MountOps(pod.containers, PATH_CONTAINERS)
    requires k <= |ops2| + |ops3|
    ensures ApplyAll(View(doc, inits, own, vols), ops2).Some?
    ensures k <= |ops2| ==> var d := ApplyAll(View(doc, inits, own, vols), ops2[..k]); d.Some? && Stable(d.value, pod)
    ensures k > |ops2| ==>
      var d := ApplyAll(ApplyAll(View(doc, inits, own, vols), ops2).value, ops3[..k - |ops2|]);
      d.Some? && Stable(d.value, pod)
  {
    var edits2, edits3 := EditAll(pod.initContainers, MountEdit), EditAll(pod.containers, MountEdit);
    var goal2, goal3 := MountedDocs(inits, pod.initContainers), MountedDocs(own, owned);
    MountNames(inits, pod.initContainers, pod.initContainers);
    MountNames(own, owned, pod.containers);
    EditWhole(edits2, inits, goal2);
    EditInits(doc, inits, own, vols, edits2, goal2, |inits|);
    if k <= |ops2| {
      InitsPrefixStable(doc, inits, own, vols, pod, edits2, goal2, k);
    } else {
      ContainersPrefixStable(doc, goal2, own, vols, pod, edits3, goal3, k - |ops2|);
    }
  }

  /** Index stability: at every intermediate document before the first injected container, both
      container arrays have the length and the names they were submitted with, so an index taken from
      the submitted pod still designates the same container. */
  lemma IndexStability(cfg: VSIConfig, doc: Json, pod: Pod, k: nat)
    requires Submitted(doc, pod) && PodPatch(cfg, pod).Success?
    requires k <= |OwnContainersPatch(cfg, pod, ContextFor(cfg, pod).value).value| + |StorageOps(cfg, pod)|
    ensures k <= |PodPatch(cfg, pod).value|
    ensures ApplyAll(doc, PodPatch(cfg, pod).value[..k]).Some?
    ensures Stable(ApplyAll(doc, PodPatch(cfg, pod).value[..k]).value, pod)
  {
    var ctx := ContextFor(cfg, pod).value;
    PatchStages(cfg, pod);
    PrefixSplit(doc, EditStages(cfg, pod, ctx), InjectStages(cfg, pod, ctx), k);
    StageLengths(cfg, pod, ctx);
    if k <= |EditStages(cfg, pod, ctx)| {
      EditStagesStable(cfg, doc, pod, ctx, k);
    } else {
      VolumePrefixStable(cfg, doc, pod, ctx, k - |EditStages(cfg, pod, ctx)|);
      VolumesFirst(cfg, pod, ctx, k - |EditStages(cfg, pod, ctx)|);
    }
  }

  lemma StageLengths(cfg: VSIConfig, pod: Pod, ctx: InjectionContext)
    requires OwnContainersPatch(cfg, pod, ctx).Success?
    ensures |OwnContainersPatch(cfg, pod, ctx).value| + |StorageOps(cfg, pod)| ==
            |EditStages(cfg, pod, ctx)| + |VolumeOps(cfg.injection.volumes, pod.volumes)|
    ensures |VolumeOps(cfg.injection.volumes, pod.volumes)| <= |InjectStages(cfg, pod, ctx)|
  {
  }

  lemma VolumesFirst(cfg: VSIConfig, pod: Pod, ctx: InjectionContext, k: nat)
    requires k <= |VolumeOps(cfg.injection.volumes, pod.volumes)|
    ensures k <= |InjectStages(cfg, pod, ctx)|
    ensures InjectStages(cfg, pod, ctx)[..k] == VolumeOps(cfg.injection.volumes, pod.volumes)[..k]
  {
  }

  lemma VolumePrefixStable(cfg: VSIConfig, doc: Json, pod: Pod, ctx: InjectionContext, k: nat)
    requires Submitted(doc, pod) && OwnContainersPatch(cfg, pod, ctx).Success?
    requires k <= |VolumeOps(cfg.injection.volumes, pod.volumes)|
    ensures ApplyAll(doc, EditStages(cfg, pod, ctx)).Some?
    ensures var d := ApplyAll(ApplyAll(doc, EditStages(cfg, pod, ctx)).value,
                              VolumeOps(cfg.injection.volumes, pod.volumes)[..k]);
            d.Some? && Stable(d.value, pod)
  {
    SubmittedArrays(doc, pod);
    OwnAndMounts(cfg, doc, pod, ctx);
    var items, vols := Items(Spec(doc), "initContainers"), Items(Spec(doc), "volumes");
    var own, owned := OwnDocs(cfg, doc, pod, ctx), OwnContainers(cfg, pod, ctx);
    var inits, cnts := MountedDocs(items, pod.initContainers), MountedDocs(own, owned);
    var added := WriteAll(AddedVolumes(cfg.injection.volumes, pod.volumes), WriteVolume);
    RewrittenRepresent(ChangeFor(cfg, pod, ctx), Items(Spec(doc), "containers"), pod.containers);
    MountedRepresent(items, pod.initContainers);
    MountedRepresent(own, owned);
    RepresentNames(inits, MapContainers(pod.initContainers, Mounted), pod.initContainers);
    RepresentNames(cnts, MapContainers(owned, Mounted), pod.containers);
    AppendVolumes(doc, inits, cnts, vols, added, k);
    ViewStable(doc, inits, cnts, vols + added[..k], pod);
  }
}
