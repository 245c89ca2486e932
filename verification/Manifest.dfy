/** The pod manifest: the typed view the injector works on, how it is read from a JSON document and
    how its parts are written back into patch values (zero-valued fields are omitted). Every entity
    keeps the fields the injector never looks at in `rest`. */
module Manifest {
  import opened Text
  import opened JsonPatch

  datatype EnvVar = EnvVar(name: string, value: string, rest: Fields)

  datatype VolumeMount = VolumeMount(name: string, mountPath: string, rest: Fields)

  datatype Volume = Volume(name: string, rest: Fields)

  datatype Lifecycle = Lifecycle(postStart: Option<Json>, rest: Fields)

  /** command is None for a container that declares none. */
  datatype Container = Container(
    name: string,
    image: string,
    command: Option<seq<string>>,
    env: seq<EnvVar>,
    volumeMounts: seq<VolumeMount>,
    lifecycle: Option<Lifecycle>,
    rest: Fields)

  datatype Pod = Pod(
    name: string,
    namespace: string,
    labels: map<string, string>,
    annotations: map<string, string>,
    initContainers: seq<Container>,
    containers: seq<Container>,
    volumes: seq<Volume>)

  const ENV_KEYS := {"name", "value"}
  const MOUNT_KEYS := {"name", "mountPath"}
  const VOLUME_KEYS := {"name"}
  const LIFECYCLE_KEYS := {"postStart"}
  const CONTAINER_KEYS := {"name", "image", "command", "env", "volumeMounts", "lifecycle"}

  predicate ValidEnv(e: EnvVar) {
    e.rest.Keys !! ENV_KEYS
  }

  predicate ValidMount(m: VolumeMount) {
    m.rest.Keys !! MOUNT_KEYS
  }

  predicate ValidVolume(v: Volume) {
    v.rest.Keys !! VOLUME_KEYS
  }

  predicate ValidLifecycle(l: Lifecycle) {
    && l.rest.Keys !! LIFECYCLE_KEYS
    && l.postStart != Some(Null)
  }

  predicate ValidContainer(c: Container) {
    && c.rest.Keys !! CONTAINER_KEYS
    && (forall i :: 0 <= i < |c.env| ==> ValidEnv(c.env[i]))
    && (forall i :: 0 <= i < |c.volumeMounts| ==> ValidMount(c.volumeMounts[i]))
    && (c.lifecycle.Some? ==> ValidLifecycle(c.lifecycle.value))
  }

  /* ---------- Reading ---------- */

  function ReadStr(f: Fields, key: string): Option<string> {
    if key !in f || f[key].Null? then Some("")
    else if f[key].Str? then Some(f[key].s)
    else None
  }

  function ReadArr(f: Fields, key: string): Option<seq<Json>> {
    if key !in f || f[key].Null? then Some([])
    else if f[key].Arr? then Some(f[key].items)
    else None
  }

  function ReadObj(f: Fields, key: string): Option<Fields> {
    if key !in f || f[key].Null? then Some(map[])
    else if f[key].Obj? then Some(f[key].fields)
    else None
  }

  function ReadAll<T>(items: seq<Json>, read: Json -> Option<T>): (r: Option<seq<T>>)
    ensures r.Some? ==> |r.value| == |items|
    ensures r.Some? ==> forall i :: 0 <= i < |items| ==> read(items[i]) == Some(r.value[i])
  {
    if items == [] then Some([])
    else
      var first :- read(items[0]);
      var rest :- ReadAll(items[1..], read);
      Some([first] + rest)
  }

  /** Reading each item as given is reading them all as given. */
  lemma {:induction false} ReadAllIs<T>(items: seq<Json>, read: Json -> Option<T>, r: seq<T>)
    requires |r| == |items|
    requires forall i :: 0 <= i < |items| ==> read(items[i]) == Some(r[i])
    ensures ReadAll(items, read) == Some(r)
  {
    if items != [] {
      ReadAllIs(items[1..], read, r[1..]);
      assert r == [r[0]] + r[1..];
    }
  }

  function ReadText(j: Json): Option<string> {
    match j
    case Str(s) => Some(s)
    case Null => Some("")
    case _ => None
  }

  function ReadTextMap(f: Fields): Option<map<string, string>> {
    if forall k :: k in f ==> ReadText(f[k]).Some? then
      Some(map k | k in f :: ReadText(f[k]).value)
    else None
  }

  function ReadEnv(j: Json): Option<EnvVar> {
    if !j.Obj? then None
    else
      var name :- ReadStr(j.fields, "name");
      var value :- ReadStr(j.fields, "value");
      Some(EnvVar(name, value, j.fields - ENV_KEYS))
  }

  function ReadMount(j: Json): Option<VolumeMount> {
    if !j.Obj? then None
    else
      var name :- ReadStr(j.fields, "name");
      var mountPath :- ReadStr(j.fields, "mountPath");
      Some(VolumeMount(name, mountPath, j.fields - MOUNT_KEYS))
  }

  function ReadVolume(j: Json): Option<Volume> {
    if !j.Obj? then None
    else
      var name :- ReadStr(j.fields, "name");
      Some(Volume(name, j.fields - VOLUME_KEYS))
  }

  function ReadLifecycle(f: Fields): Option<Option<Lifecycle>> {
    if "lifecycle" !in f || f["lifecycle"].Null? then Some(None)
    else if f["lifecycle"].Obj? then
      var l := f["lifecycle"].fields;
      var postStart := if "postStart" in l && !l["postStart"].Null? then Some(l["postStart"]) else None;
      Some(Some(Lifecycle(postStart, l - LIFECYCLE_KEYS)))
    else None
  }

  function ReadCommand(f: Fields): Option<Option<seq<string>>> {
    if "command" !in f || f["command"].Null? then Some(None)
    else
      var items :- ReadArr(f, "command");
      var words :- ReadAll(items, ReadText);
      Some(Some(words))
  }

  function ReadContainer(j: Json): Option<Container> {
    if !j.Obj? then None
    else
      var name :- ReadStr(j.fields, "name");
      var image :- ReadStr(j.fields, "image");
      var command :- ReadCommand(j.fields);
      var envItems :- ReadArr(j.fields, "env");
      var env :- ReadAll(envItems, ReadEnv);
      var mountItems :- ReadArr(j.fields, "volumeMounts");
      var mounts :- ReadAll(mountItems, ReadMount);
      var lifecycle :- ReadLifecycle(j.fields);
      Some(Container(name, image, command, env, mounts, lifecycle, j.fields - CONTAINER_KEYS))
  }

  function ReadContainers(spec: Fields, key: string): Option<seq<Container>> {
    var items :- ReadArr(spec, key);
    ReadAll(items, ReadContainer)
  }

  function ReadVolumes(spec: Fields): Option<seq<Volume>> {
    var items :- ReadArr(spec, "volumes");
    ReadAll(items, ReadVolume)
  }

  function ReadPod(doc: Json): Option<Pod> {
    if !doc.Obj? then None
    else
      var meta :- ReadObj(doc.fields, "metadata");
      var name :- ReadStr(meta, "name");
      var namespace :- ReadStr(meta, "namespace");
      var labelFields :- ReadObj(meta, "labels");
      var labels :- ReadTextMap(labelFields);
      var annotationFields :- ReadObj(meta, "annotations");
      var annotations :- ReadTextMap(annotationFields);
      var spec :- ReadObj(doc.fields, "spec");
      var initContainers :- ReadContainers(spec, "initContainers");
      var containers :- ReadContainers(spec, "containers");
      var volumes :- ReadVolumes(spec);
      Some(Pod(name, namespace, labels, annotations, initContainers, containers, volumes))
  }

  /* ---------- Writing ---------- */

  function PutStr(f: Fields, key: string, s: string): Fields {
    if s == "" then f else f[key := Str(s)]
  }

  function WriteAll<T>(xs: seq<T>, write: T -> Json): seq<Json> {
    seq(|xs|, i requires 0 <= i < |xs| => write(xs[i]))
  }

  function WriteText(s: string): Json {
    Str(s)
  }

  function WriteEnv(e: EnvVar): Json {
    Obj(PutStr(e.rest["name" := Str(e.name)], "value", e.value))
  }

  function WriteMount(m: VolumeMount): Json {
    Obj(m.rest["name" := Str(m.name)]["mountPath" := Str(m.mountPath)])
  }

  function WriteVolume(v: Volume): Json {
    Obj(v.rest["name" := Str(v.name)])
  }

  function WriteLifecycle(l: Lifecycle): Json {
    Obj(if l.postStart.Some? then l.rest["postStart" := l.postStart.value] else l.rest)
  }

  function CommandItems(command: Option<seq<string>>): seq<Json> {
    WriteAll(command.GetOr([]), WriteText)
  }

  function WriteContainer(c: Container): Json {
    var named := PutStr(c.rest["name" := Str(c.name)], "image", c.image);
    var commanded := PutItems(named, "command", CommandItems(c.command));
    var resolved := PutItems(commanded, "env", WriteAll(c.env, WriteEnv));
    var mounted := PutItems(resolved, "volumeMounts", WriteAll(c.volumeMounts, WriteMount));
    Obj(if c.lifecycle.Some? then mounted["lifecycle" := WriteLifecycle(c.lifecycle.value)] else mounted)
  }

  /* ---------- Reading what was written ---------- */

  lemma ReadWriteEnv(e: EnvVar)
    requires ValidEnv(e)
    ensures ReadEnv(WriteEnv(e)) == Some(e)
  {
    assert WriteEnv(e).fields - ENV_KEYS == e.rest;
  }

  lemma ReadWriteMount(m: VolumeMount)
    requires ValidMount(m)
    ensures ReadMount(WriteMount(m)) == Some(m)
  {
    assert WriteMount(m).fields - MOUNT_KEYS == m.rest;
  }

  lemma ReadWriteVolume(v: Volume)
    requires ValidVolume(v)
    ensures ReadVolume(WriteVolume(v)) == Some(v)
  {
    assert WriteVolume(v).fields - VOLUME_KEYS == v.rest;
  }

  lemma ReadWriteLifecycle(f: Fields, l: Lifecycle)
    requires ValidLifecycle(l) && "lifecycle" in f && f["lifecycle"] == WriteLifecycle(l)
    ensures ReadLifecycle(f) == Some(Some(l))
  {
    assert WriteLifecycle(l).fields - LIFECYCLE_KEYS == l.rest;
  }

  lemma ReadWriteTexts(words: seq<string>)
    ensures ReadAll(WriteAll(words, WriteText), ReadText) == Some(words)
  {
    var items := WriteAll(words, WriteText);
    forall i | 0 <= i < |words|
      ensures ReadText(items[i]) == Some(words[i])
    {
    }
    ReadAllIs(items, ReadText, words);
  }

  /** An empty command is not written, so it comes back as no command. */
  function Normal(c: Container): Container {
    if c.command == Some([]) then c.(command := None) else c
  }

  lemma ReadWriteEnvs(env: seq<EnvVar>)
    requires forall i :: 0 <= i < |env| ==> ValidEnv(env[i])
    ensures ReadAll(WriteAll(env, WriteEnv), ReadEnv) == Some(env)
  {
    forall i | 0 <= i < |env| { ReadWriteEnv(env[i]); }
    ReadAllIs(WriteAll(env, WriteEnv), ReadEnv, env);
  }

  lemma ReadWriteMounts(mounts: seq<VolumeMount>)
    requires forall i :: 0 <= i < |mounts| ==> ValidMount(mounts[i])
    ensures ReadAll(WriteAll(mounts, WriteMount), ReadMount) == Some(mounts)
  {
    forall i | 0 <= i < |mounts| { ReadWriteMount(mounts[i]); }
    ReadAllIs(WriteAll(mounts, WriteMount), ReadMount, mounts);
  }

  /** What each key of a written container holds. */
  lemma WrittenFields(c: Container)
    requires ValidContainer(c)
    ensures var f := WriteContainer(c).fields;
      && f - CONTAINER_KEYS == c.rest
      && ReadStr(f, "name") == Some(c.name) && ReadStr(f, "image") == Some(c.image)
      && ReadArr(f, "command") == Some(CommandItems(c.command)) && ("command" in f ==> f["command"].Arr?)
      && ("command" in f <==> CommandItems(c.command) != [])
      && ReadArr(f, "env") == Some(WriteAll(c.env, WriteEnv))
      && ReadArr(f, "volumeMounts") == Some(WriteAll(c.volumeMounts, WriteMount))
      && (c.lifecycle.None? ==> "lifecycle" !in f)
      && (c.lifecycle.Some? ==> "lifecycle" in f && f["lifecycle"] == WriteLifecycle(c.lifecycle.value))
  {
    assert WriteContainer(c).fields - CONTAINER_KEYS == c.rest;
  }

  /** Writing a container and reading it back gives the container. */
  lemma ReadWriteContainer(c: Container)
    requires ValidContainer(c)
    ensures ReadContainer(WriteContainer(c)) == Some(Normal(c))
  {
    WrittenFields(c);
    ReadWriteEnvs(c.env);
    ReadWriteMounts(c.volumeMounts);
    ReadWriteTexts(c.command.GetOr([]));
    assert |CommandItems(c.command)| == |c.command.GetOr([])|;
    if c.lifecycle.Some? {
      ReadWriteLifecycle(WriteContainer(c).fields, c.lifecycle.value);
    }
  }

  lemma ReadContainerValid(j: Json)
    requires ReadContainer(j).Some?
    ensures ValidContainer(ReadContainer(j).value)
  {
  }

  /* ---------- Reading edited documents ---------- */

  lemma ReadWithCommand(j: Json, command: seq<string>)
    requires j.Obj? && ReadContainer(j).Some?
    ensures ReadContainer(Obj(j.fields["command" := Arr(WriteAll(command, WriteText))])) ==
            Some(ReadContainer(j).value.(command := Some(command)))
  {
    var f := j.fields["command" := Arr(WriteAll(command, WriteText))];
    ReadWriteTexts(command);
    assert f - CONTAINER_KEYS == j.fields - CONTAINER_KEYS;
    assert ReadLifecycle(f) == ReadLifecycle(j.fields);
  }

  lemma ReadWithMount(j: Json, m: VolumeMount)
    requires j.Obj? && ReadContainer(j).Some? && ValidMount(m)
    ensures var f := PutItems(j.fields, "volumeMounts", Items(j.fields, "volumeMounts") + [WriteMount(m)]);
      ReadContainer(Obj(f)) ==
      Some(ReadContainer(j).value.(volumeMounts := ReadContainer(j).value.volumeMounts + [m]))
  {
    var mounts := ReadContainer(j).value.volumeMounts;
    var items := Items(j.fields, "volumeMounts") + [WriteMount(m)];
    var f := PutItems(j.fields, "volumeMounts", items);
    ReadWriteMount(m);
    ReadAllIs(items, ReadMount, mounts + [m]);
    assert f - CONTAINER_KEYS == j.fields - CONTAINER_KEYS;
    assert ReadCommand(f) == ReadCommand(j.fields) && ReadLifecycle(f) == ReadLifecycle(j.fields);
  }

  lemma ReadAllAppend<T>(a: seq<Json>, b: seq<Json>, read: Json -> Option<T>)
    requires ReadAll(a, read).Some? && ReadAll(b, read).Some?
    ensures ReadAll(a + b, read) == Some(ReadAll(a, read).value + ReadAll(b, read).value)
  {
    ReadAllIs(a + b, read, ReadAll(a, read).value + ReadAll(b, read).value);
  }
}
