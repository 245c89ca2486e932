/** JSON documents, JSON Pointer (RFC 6901) and the two JSON Patch operations (RFC 6902) the injector
    emits, with the three shapes of patch it builds: edits inside array elements, insertions at the
    front of an array and appends at its end. */
module JsonPatch {
  import opened Text

  datatype Json =
    | Null
    | Bool(b: bool)
    | Num(literal: string)
    | Str(s: string)
    | Arr(items: seq<Json>)
    | Obj(fields: map<string, Json>)

  type Fields = map<string, Json>

  datatype PatchOp = PatchOp(op: string, path: string, value: Json)

  const OP_ADD := "add"
  const OP_REPLACE := "replace"

  /* ---------- Pointers: sections 3 and 4 of RFC 6901 ---------- */

  function Unescape(t: string): Option<string> {
    if t == "" then Some("")
    else if t[0] != '~' then
      var rest :- Unescape(t[1..]);
      Some([t[0]] + rest)
    else if |t| > 1 && t[1] in "01" then
      var rest :- Unescape(t[2..]);
      Some([if t[1] == '0' then '~' else '/'] + rest)
    else None
  }

  function UnescapeAll(tokens: seq<string>): Option<seq<string>> {
    if tokens == [] then Some([])
    else
      var first :- Unescape(tokens[0]);
      var rest :- UnescapeAll(tokens[1..]);
      Some([first] + rest)
  }

  function ParsePointer(path: string): Option<seq<string>> {
    if path == "" then Some([])
    else if path[0] != '/' then None
    else UnescapeAll(Split(path[1..], "/"))
  }

  lemma {:induction false} UnescapeAllAppend(a: seq<string>, b: seq<string>)
    ensures UnescapeAll(a + b) ==
            if UnescapeAll(a).None? || UnescapeAll(b).None? then None
            else Some(UnescapeAll(a).value + UnescapeAll(b).value)
  {
    if a == [] {
      assert a + b == b;
      assert UnescapeAll(b).Some? ==> [] + UnescapeAll(b).value == UnescapeAll(b).value;
    } else {
      UnescapeAllAppend(a[1..], b);
      assert (a + b)[1..] == a[1..] + b && (a + b)[0] == a[0];
      if Unescape(a[0]).Some? && UnescapeAll(a[1..]).Some? && UnescapeAll(b).Some? {
        var first, rest := [Unescape(a[0]).value], UnescapeAll(a[1..]).value;
        assert first + (rest + UnescapeAll(b).value) == first + rest + UnescapeAll(b).value;
      }
    }
  }

  /** Pointers concatenate token by token. */
  lemma PointerAppend(p: string, q: string)
    requires p == "" || p[0] == '/'
    requires q == "" || q[0] == '/'
    ensures ParsePointer(p + q) ==
            if ParsePointer(p).None? || ParsePointer(q).None? then None
            else Some(ParsePointer(p).value + ParsePointer(q).value)
  {
    if p == "" {
      assert p + q == q;
      assert ParsePointer(q).Some? ==> [] + ParsePointer(q).value == ParsePointer(q).value;
    } else if q == "" {
      assert p + q == p;
      assert ParsePointer(p).Some? ==> ParsePointer(p).value + [] == ParsePointer(p).value;
    } else {
      assert (p + q)[1..] == p[1..] + ['/'] + q[1..];
      SplitAppend(p[1..], '/', q[1..]);
      UnescapeAllAppend(Split(p[1..], "/"), Split(q[1..], "/"));
      assert (p + q)[0] == '/';
      assert ParsePointer(p + q) == UnescapeAll(Split(p[1..], "/") + Split(q[1..], "/"));
    }
  }

  predicate Plain(t: string) {
    '/' !in t && '~' !in t
  }

  lemma {:induction false} UnescapePlain(t: string)
    requires '~' !in t
    ensures Unescape(t) == Some(t)
  {
    if t != "" {
      UnescapePlain(t[1..]);
      assert [t[0]] + t[1..] == t;
    }
  }

  lemma UnescapeOne(e: string, t: string)
    requires Unescape(e) == Some(t)
    ensures UnescapeAll([e]) == Some([t])
  {
    assert [e][1..] == [] && [t] + [] == [t];
  }

  lemma PointerOne(t: string)
    requires Plain(t)
    ensures ParsePointer("/" + t) == Some([t])
  {
    SplitNone(t, '/');
    UnescapePlain(t);
    assert ("/" + t)[1..] == t;
    UnescapeOne(t, t);
  }

  lemma PointerSnoc(p: string, t: string)
    requires (p == "" || p[0] == '/') && ParsePointer(p).Some? && Plain(t)
    ensures ParsePointer(p + "/" + t) == Some(ParsePointer(p).value + [t])
  {
    PointerOne(t);
    PointerAppend(p, "/" + t);
    assert p + "/" + t == p + ("/" + t);
  }

  lemma PlainIndex(i: nat)
    ensures Plain(Itoa(i))
  {
    ItoaIsIndex(i);
  }

  /* ---------- Operations: section 4 of RFC 6902 ---------- */

  function Member(doc: Json, token: string): Option<Json> {
    match doc
    case Obj(fields) => if token in fields then Some(fields[token]) else None
    case Arr(items) => if IsIndex(token) && Atoi(token) < |items| then Some(items[Atoi(token)]) else None
    case _ => None
  }

  function WithMember(doc: Json, token: string, child: Json): Json
    requires Member(doc, token).Some?
  {
    if doc.Obj? then Obj(doc.fields[token := child]) else Arr(doc.items[Atoi(token) := child])
  }

  function Insert<T>(s: seq<T>, i: nat, x: T): seq<T>
    requires i <= |s|
  {
    s[..i] + [x] + s[i..]
  }

  /** Sections 4.1 and 4.3: the effect of the operation on the value holding the target location. */
  function PutMember(op: string, doc: Json, token: string, value: Json): Option<Json> {
    match doc
    case Obj(fields) =>
      if op == OP_ADD || (op == OP_REPLACE && token in fields) then Some(Obj(fields[token := value])) else None
    case Arr(items) =>
      if op == OP_ADD && token == "-" then Some(Arr(items + [value]))
      else if op == OP_ADD && IsIndex(token) && Atoi(token) <= |items| then Some(Arr(Insert(items, Atoi(token), value)))
      else if op == OP_REPLACE && IsIndex(token) && Atoi(token) < |items| then Some(Arr(items[Atoi(token) := value]))
      else None
    case _ => None
  }

  function ApplyAt(op: string, doc: Json, tokens: seq<string>, value: Json): Option<Json> {
    if tokens == [] then if op == OP_ADD || op == OP_REPLACE then Some(value) else None
    else if |tokens| == 1 then PutMember(op, doc, tokens[0], value)
    else
      var child :- Member(doc, tokens[0]);
      var changed :- ApplyAt(op, child, tokens[1..], value);
      Some(WithMember(doc, tokens[0], changed))
  }

  function ApplyOp(doc: Json, op: PatchOp): Option<Json> {
    var tokens :- ParsePointer(op.path);
    ApplyAt(op.op, doc, tokens, op.value)
  }

  /** Section 3: the operations are applied in order, each to the result of the one before. */
  function ApplyAll(doc: Json, ops: seq<PatchOp>): Option<Json> {
    if ops == [] then Some(doc)
    else
      var before :- ApplyAll(doc, ops[..|ops| - 1]);
      ApplyOp(before, ops[|ops| - 1])
  }

  lemma {:induction false} ApplyAppend(doc: Json, a: seq<PatchOp>, b: seq<PatchOp>)
    ensures ApplyAll(doc, a + b) ==
            if ApplyAll(doc, a).None? then None else ApplyAll(ApplyAll(doc, a).value, b)
  {
    if b == [] {
      assert a + b == a;
    } else {
      ApplyAppend(doc, a, b[..|b| - 1]);
      assert (a + b)[..|a + b| - 1] == a + b[..|b| - 1];
    }
  }

  lemma ApplySnoc(doc: Json, a: seq<PatchOp>, op: PatchOp)
    requires ApplyAll(doc, a).Some?
    ensures ApplyAll(doc, a + [op]) == ApplyOp(ApplyAll(doc, a).value, op)
  {
    assert (a + [op])[..|a|] == a;
  }

  /* ---------- Arrays under /spec ---------- */

  function Items(fields: Fields, key: string): seq<Json> {
    if key in fields && fields[key].Arr? then fields[key].items else []
  }

  /** An empty array is left as it was: absent, null or empty. */
  function PutItems(fields: Fields, key: string, items: seq<Json>): Fields {
    if items == [] then fields else fields[key := Arr(items)]
  }

  predicate HasObject(doc: Json, key: string) {
    doc.Obj? && key in doc.fields && doc.fields[key].Obj?
  }

  function Spec(doc: Json): Fields
    requires HasObject(doc, "spec")
  {
    doc.fields["spec"].fields
  }

  function WithSpec(doc: Json, spec: Fields): Json
    requires doc.Obj?
  {
    Obj(doc.fields["spec" := Obj(spec)])
  }

  function WithItems(doc: Json, key: string, items: seq<Json>): Json
    requires HasObject(doc, "spec")
  {
    WithSpec(doc, PutItems(Spec(doc), key, items))
  }

  function SpecPath(key: string): string {
    "/spec/" + key
  }

  /** The array at key holds exactly these items (none: absent, null or empty). */
  predicate Holds(doc: Json, key: string, items: seq<Json>) {
    && HasObject(doc, "spec")
    && Items(Spec(doc), key) == items
  }

  lemma WithItemsHolds(doc: Json, key: string, items: seq<Json>, other: string)
    requires HasObject(doc, "spec")
    requires items == [] ==> Items(Spec(doc), key) == []
    ensures Holds(WithItems(doc, key, items), key, items)
    ensures other != key ==> Holds(WithItems(doc, key, items), other, Items(Spec(doc), other))
    ensures items == Items(Spec(doc), key) ==> WithItems(doc, key, items) == doc
  {
    if items == Items(Spec(doc), key) {
      assert PutItems(Spec(doc), key, items) == Spec(doc);
      assert WithItems(doc, key, items).fields == doc.fields;
    }
  }

  lemma WithItemsTwice(doc: Json, key: string, a: seq<Json>, b: seq<Json>)
    requires HasObject(doc, "spec")
    requires b == [] ==> a == []
    ensures WithItems(WithItems(doc, key, a), key, b) == WithItems(doc, key, b)
  {
    var d := WithItems(doc, key, a);
    assert PutItems(Spec(d), key, b) == PutItems(Spec(doc), key, b);
    assert WithItems(d, key, b).fields == WithItems(doc, key, b).fields;
  }

  lemma PointerSpec(key: string)
    requires Plain(key)
    ensures ParsePointer(SpecPath(key)) == Some(["spec", key])
  {
    PointerOne("spec");
    PointerSnoc("/spec", key);
    assert SpecPath(key) == "/spec" + "/" + key;
    assert "/spec" == "/" + "spec";
    assert ["spec"] + [key] == ["spec", key];
  }

  /** Pointer round trip for an element of an array under /spec: the printed index parses back to the
      tokens meant, whatever plain path follows it. */
  lemma PointerElement(key: string, i: nat, suffix: string)
    requires Plain(key)
    requires (suffix == "" || suffix[0] == '/') && ParsePointer(suffix).Some?
    ensures ParsePointer(SpecPath(key) + "/" + Itoa(i) + suffix) ==
            Some(["spec", key, Itoa(i)] + ParsePointer(suffix).value)
    ensures IsIndex(Itoa(i)) && Atoi(Itoa(i)) == i
  {
    PointerSpec(key);
    PlainIndex(i);
    PointerSnoc(SpecPath(key), Itoa(i));
    PointerAppend(SpecPath(key) + "/" + Itoa(i), suffix);
    ItoaIsIndex(i);
    assert ["spec", key] + [Itoa(i)] == ["spec", key, Itoa(i)];
  }

  lemma ApplyUnderSpec(op: string, doc: Json, key: string, value: Json)
    requires HasObject(doc, "spec") && op == OP_ADD
    ensures ApplyAt(op, doc, ["spec", key], value) == Some(WithSpec(doc, Spec(doc)[key := value]))
  {
    assert ["spec", key][1..] == [key];
  }

  lemma ApplyInItems(op: string, doc: Json, key: string, rest: seq<string>, value: Json)
    requires HasObject(doc, "spec") && key in Spec(doc)
    requires rest != []
    ensures ApplyAt(op, doc, ["spec", key] + rest, value) ==
            match ApplyAt(op, Spec(doc)[key], rest, value)
            case None => None
            case Some(x) => Some(WithSpec(doc, Spec(doc)[key := x]))
  {
    var tokens := ["spec", key] + rest;
    assert tokens[1..] == [key] + rest && tokens[1..][1..] == rest;
    assert ApplyAt(op, Obj(Spec(doc)), [key] + rest, value) ==
           match ApplyAt(op, Spec(doc)[key], rest, value)
           case None => None
           case Some(x) => Some(Obj(Spec(doc)[key := x]));
  }

  /* ---------- Edits inside the elements of an array ---------- */

  /** At most one operation on one array element, below the element's own path. */
  datatype Edit = Keep | Change(op: string, suffix: string, value: Json)

  predicate WellFormedEdit(e: Edit) {
    e.Change? ==>
      && (e.suffix == "" || e.suffix[0] == '/')
      && ParsePointer(e.suffix).Some?
      && (e.suffix == "" ==> e.op == OP_REPLACE)
  }

  /** The edit takes the element from x to y. */
  predicate Edits(e: Edit, x: Json, y: Json) {
    match e
    case Keep => x == y
    case Change(op, suffix, value) => WellFormedEdit(e) && ApplyAt(op, x, ParsePointer(suffix).value, value) == Some(y)
  }

  function EditOp(base: string, i: nat, e: Edit): seq<PatchOp> {
    if e.Keep? then [] else [PatchOp(e.op, base + "/" + Itoa(i) + e.suffix, e.value)]
  }

  function EditOps(base: string, edits: seq<Edit>): seq<PatchOp> {
    if edits == [] then []
    else EditOps(base, edits[..|edits| - 1]) + EditOp(base, |edits| - 1, edits[|edits| - 1])
  }

  lemma ApplyEdit(doc: Json, key: string, items: seq<Json>, i: nat, e: Edit, y: Json)
    requires Holds(doc, key, items) && Plain(key) && i < |items|
    requires Edits(e, items[i], y)
    ensures ApplyAll(doc, EditOp(SpecPath(key), i, e)) == Some(WithItems(doc, key, items[i := y]))
  {
    if e.Keep? {
      assert items[i := y] == items;
      WithItemsHolds(doc, key, items, key);
    } else {
      var op := EditOp(SpecPath(key), i, e)[0];
      ApplyChange(doc, key, items, i, e, y);
      ApplySnoc(doc, [], op);
      assert [] + [op] == EditOp(SpecPath(key), i, e);
    }
  }

  lemma ApplyChange(doc: Json, key: string, items: seq<Json>, i: nat, e: Edit, y: Json)
    requires Holds(doc, key, items) && Plain(key) && i < |items|
    requires e.Change? && Edits(e, items[i], y)
    ensures ApplyOp(doc, PatchOp(e.op, SpecPath(key) + "/" + Itoa(i) + e.suffix, e.value)) ==
            Some(WithItems(doc, key, items[i := y]))
  {
    var rest := ParsePointer(e.suffix).value;
    PointerElement(key, i, e.suffix);
    assert ["spec", key, Itoa(i)] + rest == ["spec", key] + ([Itoa(i)] + rest);
    ApplyInItems(e.op, doc, key, [Itoa(i)] + rest, e.value);
    ApplyInElement(e, items, i, y);
  }

  lemma ApplyInElement(e: Edit, items: seq<Json>, i: nat, y: Json)
    requires i < |items| && e.Change? && Edits(e, items[i], y)
    ensures ApplyAt(e.op, Arr(items), [Itoa(i)] + ParsePointer(e.suffix).value, e.value) == Some(Arr(items[i := y]))
  {
    var rest := ParsePointer(e.suffix).value;
    ItoaIsIndex(i);
    assert ([Itoa(i)] + rest)[1..] == rest;
    if e.suffix != "" {
      PointerNonEmpty(e.suffix);
    }
  }

  lemma PointerNonEmpty(p: string)
    requires p != "" && ParsePointer(p).Some?
    ensures ParsePointer(p).value != []
  {
  }

  /** Applying the operations of the first edits rewrites exactly the first elements. */
  lemma {:induction false} ApplyEdits(doc: Json, key: string, items: seq<Json>, edits: seq<Edit>, goal: seq<Json>)
    requires Holds(doc, key, items) && Plain(key)
    requires |edits| <= |items| && |goal| == |items|
    requires forall i :: 0 <= i < |edits| ==> Edits(edits[i], items[i], goal[i])
    ensures ApplyAll(doc, EditOps(SpecPath(key), edits)) ==
            Some(WithItems(doc, key, goal[..|edits|] + items[|edits|..]))
    decreases |edits|
  {
    if edits == [] {
      assert goal[..0] + items[0..] == items;
      WithItemsHolds(doc, key, items, key);
    } else {
      var n := |edits| - 1;
      ApplyEdits(doc, key, items, edits[..n], goal);
      ApplyEditsNext(doc, key, items, n, edits[n], goal);
      ApplyAppend(doc, EditOps(SpecPath(key), edits[..n]), EditOp(SpecPath(key), n, edits[n]));
    }
  }

  lemma ApplyEditsNext(doc: Json, key: string, items: seq<Json>, n: nat, e: Edit, goal: seq<Json>)
    requires Holds(doc, key, items) && Plain(key) && n < |items| == |goal|
    requires Edits(e, items[n], goal[n])
    ensures ApplyAll(WithItems(doc, key, goal[..n] + items[n..]), EditOp(SpecPath(key), n, e)) ==
            Some(WithItems(doc, key, goal[..n + 1] + items[n + 1..]))
  {
    var mixed := goal[..n] + items[n..];
    WithItemsHolds(doc, key, mixed, key);
    ApplyEdit(WithItems(doc, key, mixed), key, mixed, n, e, goal[n]);
    assert mixed[n := goal[n]] == goal[..n + 1] + items[n + 1..];
    WithItemsTwice(doc, key, mixed, mixed[n := goal[n]]);
  }

  /** Every prefix of the operations is the operations of a prefix of the edits. */
  lemma {:induction false} EditOpsPrefix(base: string, edits: seq<Edit>, k: nat) returns (n: nat)
    requires k <= |EditOps(base, edits)|
    ensures n <= |edits| && EditOps(base, edits)[..k] == EditOps(base, edits[..n])
    decreases |edits|
  {
    if edits == [] {
      n := 0;
    } else {
      var shorter := edits[..|edits| - 1];
      var ops := EditOps(base, shorter);
      if k <= |ops| {
        n := EditOpsPrefix(base, shorter, k);
        assert EditOps(base, edits)[..k] == ops[..k];
        assert edits[..n] == shorter[..n];
      } else {
        n := |edits|;
        assert edits[..n] == edits && EditOps(base, edits)[..k] == EditOps(base, edits);
      }
    }
  }

  /* ---------- Insertions at the front, appends at the end ---------- */

  function InsertOp(base: string, first: bool, i: nat, value: Json): PatchOp {
    if first && i == 0 then PatchOp(OP_ADD, base, Arr([value])) else PatchOp(OP_ADD, base + "/" + Itoa(i), value)
  }

  /** Operations putting the values, in order, before the elements of the array; `first` says that
      the array does not exist yet, so that the first value creates it. */
  function InsertOps(base: string, first: bool, values: seq<Json>): seq<PatchOp> {
    if values == [] then []
    else
      var n := |values| - 1;
      InsertOps(base, first, values[..n]) + [InsertOp(base, first, n, values[n])]
  }

  function AppendOps(base: string, first: bool, values: seq<Json>): seq<PatchOp> {
    seq(|values|, i requires 0 <= i < |values| =>
      if first && i == 0 then PatchOp(OP_ADD, base, Arr([values[i]]))
      else PatchOp(OP_ADD, base + "/-", values[i]))
  }

  lemma ApplyCreate(doc: Json, key: string, value: Json)
    requires HasObject(doc, "spec") && Plain(key)
    ensures ApplyOp(doc, PatchOp(OP_ADD, SpecPath(key), Arr([value]))) == Some(WithItems(doc, key, [value]))
  {
    PointerSpec(key);
    ApplyUnderSpec(OP_ADD, doc, key, Arr([value]));
  }

  lemma ApplyInsert(doc: Json, key: string, items: seq<Json>, i: nat, value: Json)
    requires Holds(doc, key, items) && Plain(key) && i <= |items| && items != []
    ensures ApplyOp(doc, PatchOp(OP_ADD, SpecPath(key) + "/" + Itoa(i), value)) ==
            Some(WithItems(doc, key, Insert(items, i, value)))
  {
    PointerElement(key, i, "");
    assert SpecPath(key) + "/" + Itoa(i) + "" == SpecPath(key) + "/" + Itoa(i);
    assert ["spec", key, Itoa(i)] + [] == ["spec", key] + [Itoa(i)];
    ApplyInItems(OP_ADD, doc, key, [Itoa(i)], value);
    assert ApplyAt(OP_ADD, Arr(items), [Itoa(i)], value) == Some(Arr(Insert(items, i, value))) by {
      NotDash(i);
    }
  }

  lemma NotDash(i: nat)
    ensures Itoa(i) != "-"
  {
    ItoaIsIndex(i);
    assert !IsDigit("-"[0]);
  }

  lemma ApplyAppendOne(doc: Json, key: string, items: seq<Json>, value: Json)
    requires Holds(doc, key, items) && Plain(key) && items != []
    ensures ApplyOp(doc, PatchOp(OP_ADD, SpecPath(key) + "/-", value)) == Some(WithItems(doc, key, items + [value]))
  {
    PointerSpec(key);
    PointerSnoc(SpecPath(key), "-");
    assert SpecPath(key) + "/" + "-" == SpecPath(key) + "/-";
    ApplyInItems(OP_ADD, doc, key, ["-"], value);
    assert ["spec", key] + ["-"] == Some(["spec", key]).value + ["-"];
  }

  lemma ApplyInsertNext(doc: Json, key: string, items: seq<Json>, first: bool, before: seq<Json>, v: Json)
    requires Holds(doc, key, items) && Plain(key)
    requires first <==> items == []
    ensures ApplyOp(WithItems(doc, key, before + items), InsertOp(SpecPath(key), first, |before|, v)) ==
            Some(WithItems(doc, key, before + [v] + items))
  {
    var d := WithItems(doc, key, before + items);
    WithItemsHolds(doc, key, before + items, key);
    if before + items == [] {
      ApplyCreate(d, key, v);
      assert before + [v] + items == [v];
    } else {
      ApplyInsert(d, key, before + items, |before|, v);
      assert Insert(before + items, |before|, v) == before + [v] + items;
    }
    WithItemsTwice(doc, key, before + items, before + [v] + items);
  }

  lemma {:induction false} ApplyInserts(doc: Json, key: string, items: seq<Json>, first: bool, values: seq<Json>)
    requires Holds(doc, key, items) && Plain(key)
    requires first <==> items == []
    ensures ApplyAll(doc, InsertOps(SpecPath(key), first, values)) == Some(WithItems(doc, key, values + items))
    ensures |InsertOps(SpecPath(key), first, values)| == |values|
    decreases |values|
  {
    if values == [] {
      assert values + items == items;
      WithItemsHolds(doc, key, items, key);
    } else {
      var n := |values| - 1;
      ApplyInserts(doc, key, items, first, values[..n]);
      ApplyInsertNext(doc, key, items, first, values[..n], values[n]);
      InsertsSnoc(doc, SpecPath(key), first, values);
      assert values[..n] + [values[n]] == values;
    }
  }

  lemma InsertsSnoc(doc: Json, base: string, first: bool, values: seq<Json>)
    requires values != [] && ApplyAll(doc, InsertOps(base, first, values[..|values| - 1])).Some?
    ensures var n := |values| - 1;
      ApplyAll(doc, InsertOps(base, first, values)) ==
      ApplyOp(ApplyAll(doc, InsertOps(base, first, values[..n])).value, InsertOp(base, first, n, values[n]))
  {
    var n := |values| - 1;
    ApplySnoc(doc, InsertOps(base, first, values[..n]), InsertOp(base, first, n, values[n]));
  }

  lemma ApplyAppendNext(doc: Json, key: string, items: seq<Json>, first: bool, values: seq<Json>, n: nat)
    requires HasObject(doc, "spec") && Plain(key)
    requires first <==> items == []
    requires n < |values| && Items(Spec(doc), key) == items
    ensures ApplyOp(WithItems(doc, key, items + values[..n]), AppendOps(SpecPath(key), first, values)[n]) ==
            Some(WithItems(doc, key, items + values[..n + 1]))
  {
    var before := items + values[..n];
    var d := WithItems(doc, key, before);
    WithItemsHolds(doc, key, before, key);
    assert before + [values[n]] == items + values[..n + 1];
    if before == [] {
      ApplyCreate(d, key, values[n]);
      assert [] + [values[n]] == [values[n]];
    } else {
      ApplyAppendOne(d, key, before, values[n]);
    }
    WithItemsTwice(doc, key, before, items + values[..n + 1]);
  }

  lemma {:induction false} ApplyAppends(
    doc: Json, key: string, items: seq<Json>, first: bool, values: seq<Json>, n: nat)
    requires Holds(doc, key, items) && Plain(key)
    requires (first <==> items == []) && n <= |values|
    ensures ApplyAll(doc, AppendOps(SpecPath(key), first, values)[..n]) ==
            Some(WithItems(doc, key, items + values[..n]))
    decreases n
  {
    var ops := AppendOps(SpecPath(key), first, values);
    if n == 0 {
      assert items + values[..0] == items;
      WithItemsHolds(doc, key, items, key);
    } else {
      ApplyAppends(doc, key, items, first, values, n - 1);
      assert ops[..n] == ops[..n - 1] + [ops[n - 1]];
      ApplySnoc(doc, ops[..n - 1], ops[n - 1]);
      ApplyAppendNext(doc, key, items, first, values, n - 1);
    }
  }
}
