/** Laws of the formats the model is built on, stated on their own: escaped pointer tokens, the replace
    operation and the keys of the JSON forms of a container's parts. */
module Formats {
  import opened Text
  import opened JsonPatch
  import opened Manifest

  /* ---------- Pointers and replacements ---------- */

  /** Section 3 of RFC 6901: how a token is written in a pointer. */
  function Escape(t: string): string {
    if t == "" then ""
    else (if t[0] == '~' then "~0" else if t[0] == '/' then "~1" else [t[0]]) + Escape(t[1..])
  }

  lemma {:induction false} UnescapeEscape(t: string)
    ensures Unescape(Escape(t)) == Some(t) && '/' !in Escape(t)
  {
    if t != "" {
      UnescapeEscape(t[1..]);
      var rest := Escape(t[1..]);
      if t[0] == '~' || t[0] == '/' {
        assert Escape(t)[2..] == rest;
      } else {
        assert Escape(t)[1..] == rest;
      }
      assert [t[0]] + t[1..] == t;
    }
  }

  /** An escaped token, whatever it holds, reads back as the token. */
  lemma PointerEscaped(p: string, t: string)
    requires (p == "" || p[0] == '/') && ParsePointer(p).Some?
    ensures ParsePointer(p + "/" + Escape(t)) == Some(ParsePointer(p).value + [t])
  {
    UnescapeEscape(t);
    SplitNone(Escape(t), '/');
    UnescapeOne(Escape(t), t);
    assert ("/" + Escape(t))[1..] == Escape(t);
    PointerAppend(p, "/" + Escape(t));
    assert p + "/" + Escape(t) == p + ("/" + Escape(t));
  }

  /** The value at a location, if there is one. */
  function ValueAt(doc: Json, tokens: seq<string>): Option<Json> {
    if tokens == [] then Some(doc)
    else
      var child :- Member(doc, tokens[0]);
      ValueAt(child, tokens[1..])
  }

  /** Section 4.3: a replacement needs its target, and puts the value there. */
  lemma {:induction false} ReplaceLaw(doc: Json, tokens: seq<string>, value: Json)
    ensures ApplyAt(OP_REPLACE, doc, tokens, value).Some? <==> ValueAt(doc, tokens).Some?
    ensures ValueAt(doc, tokens).Some? ==>
      ValueAt(ApplyAt(OP_REPLACE, doc, tokens, value).value, tokens) == Some(value)
    decreases |tokens|
  {
    if |tokens| > 0 {
      ReplaceStep(doc, tokens[0], value);
      if |tokens| == 1 {
        assert tokens[1..] == [];
      } else if Member(doc, tokens[0]).Some? {
        ReplaceLaw(Member(doc, tokens[0]).value, tokens[1..], value);
        if ValueAt(doc, tokens).Some? {
          var changed := ApplyAt(OP_REPLACE, Member(doc, tokens[0]).value, tokens[1..], value).value;
          MemberPut(doc, tokens[0], changed);
        }
      }
    }
  }

  lemma ReplaceStep(doc: Json, token: string, value: Json)
    ensures PutMember(OP_REPLACE, doc, token, value) ==
            if Member(doc, token).Some? then Some(WithMember(doc, token, value)) else None
  {
    IndexNotDash(token);
  }

  lemma IndexNotDash(token: string)
    ensures IsIndex(token) ==> token != "-"
  {
    assert token == "-" ==> !IsDigit(token[0]);
  }

  lemma MemberPut(doc: Json, token: string, child: Json)
    requires Member(doc, token).Some?
    ensures Member(WithMember(doc, token, child), token) == Some(child)
  {
  }

  /* ---------- Keys ---------- */

  predicate HasText(f: Fields, key: string, text: string) {
    key in f && f[key] == Str(text)
  }

  predicate HasItems(f: Fields, key: string, items: seq<Json>) {
    key in f && f[key] == Arr(items)
  }

  lemma EnvKeys(f: Fields, name: string, value: string)
    requires HasText(f, "name", name) && HasText(f, "value", value)
    ensures ReadEnv(Obj(f)) == Some(EnvVar(name, value, f - {"name", "value"}))
  {
  }

  lemma MountKeys(f: Fields, name: string, mountPath: string)
    requires HasText(f, "name", name) && HasText(f, "mountPath", mountPath)
    ensures ReadMount(Obj(f)) == Some(VolumeMount(name, mountPath, f - {"name", "mountPath"}))
  {
  }

  lemma VolumeKeys(f: Fields, name: string)
    requires HasText(f, "name", name)
    ensures ReadVolume(Obj(f)) == Some(Volume(name, f - {"name"}))
  {
  }

  lemma LifecycleKeys(f: Fields, l: Fields)
    requires "lifecycle" in f && f["lifecycle"] == Obj(l) && "postStart" in l && l["postStart"] != Null
    ensures ReadLifecycle(f) == Some(Some(Lifecycle(Some(l["postStart"]), l - {"postStart"})))
  {
  }

  lemma ContainerKeys(
    f: Fields, name: string, image: string, words: seq<Json>, variables: seq<Json>, mounts: seq<Json>, l: Fields)
    requires HasText(f, "name", name) && HasText(f, "image", image) && HasItems(f, "command", words)
    requires HasItems(f, "env", variables) && HasItems(f, "volumeMounts", mounts)
    requires "lifecycle" in f && f["lifecycle"] == Obj(l) && "postStart" in l && l["postStart"] != Null
    requires ReadAll(words, ReadText).Some?
    requires ReadAll(variables, ReadEnv).Some? && ReadAll(mounts, ReadMount).Some?
    ensures ReadContainer(Obj(f)) ==
      Some(Container(name, image, Some(ReadAll(words, ReadText).value), ReadAll(variables, ReadEnv).value,
        ReadAll(mounts, ReadMount).value, Some(Lifecycle(Some(l["postStart"]), l - {"postStart"})),
        f - {"name", "image", "command", "env", "volumeMounts", "lifecycle"}))
  {
    LifecycleKeys(f, l);
  }

  /** A pod's parts, and where they are. */
  lemma PodKeys(doc: Json, meta: Fields, spec: Fields, pod: Pod)
    requires ReadPod(doc) == Some(pod) && doc.Obj?
    requires "metadata" in doc.fields && doc.fields["metadata"] == Obj(meta)
    requires "spec" in doc.fields && doc.fields["spec"] == Obj(spec)
    ensures "name" in meta && meta["name"].Str? ==> pod.name == meta["name"].s
    ensures "namespace" in meta && meta["namespace"].Str? ==> pod.namespace == meta["namespace"].s
    ensures "labels" in meta && meta["labels"].Obj? ==> ReadTextMap(meta["labels"].fields) == Some(pod.labels)
    ensures "annotations" in meta && meta["annotations"].Obj? ==>
      ReadTextMap(meta["annotations"].fields) == Some(pod.annotations)
    ensures "initContainers" in spec && spec["initContainers"].Arr? ==>
      ReadAll(spec["initContainers"].items, ReadContainer) == Some(pod.initContainers)
    ensures "containers" in spec && spec["containers"].Arr? ==>
      ReadAll(spec["containers"].items, ReadContainer) == Some(pod.containers)
    ensures "volumes" in spec && spec["volumes"].Arr? ==>
      ReadAll(spec["volumes"].items, ReadVolume) == Some(pod.volumes)
  {
  }
}
