/** Go's path.Clean and path.Join on slash-separated paths. */
module GoPath {
  import opened Text

  predicate Rooted(p: string) {
    p != "" && p[0] == '/'
  }

  /** One path element pushed on the elements kept so far. */
  function Push(kept: seq<string>, element: string, rooted: bool): seq<string> {
    if element == "" || element == "." then kept
    else if element != ".." then kept + [element]
    else if kept != [] && kept[|kept| - 1] != ".." then kept[..|kept| - 1]
    else if rooted then kept
    else kept + [element]
  }

  function CleanElements(elements: seq<string>, rooted: bool): seq<string> {
    if elements == [] then []
    else Push(CleanElements(elements[..|elements| - 1], rooted), elements[|elements| - 1], rooted)
  }

  function Unsplit(kept: seq<string>): string {
    if kept == [] then "" else Join(kept, "/")
  }

  function Clean(p: string): string {
    var body := Unsplit(CleanElements(Split(p, "/"), Rooted(p)));
    if Rooted(p) then "/" + body else if body == "" then "." else body
  }

  /** path.Join(dir, file) for a non-empty dir. */
  function JoinPath(dir: string, file: string): string
    requires dir != ""
  {
    Clean(dir + "/" + file)
  }

  lemma {:induction false} JoinSnoc(kept: seq<string>, e: string)
    ensures Unsplit(kept + [e]) == if kept == [] then e else Unsplit(kept) + "/" + e
    decreases |kept|
  {
    if kept == [] {
      assert kept + [e] == [e];
    } else if |kept| == 1 {
      assert (kept + [e])[1..] == [e] && (kept + [e])[0] == kept[0];
      assert Join(kept + [e], "/") == kept[0] + "/" + Join([e], "/");
    } else {
      JoinSnoc(kept[1..], e);
      assert (kept + [e])[1..] == kept[1..] + [e] && (kept + [e])[0] == kept[0];
      var rest := Unsplit(kept[1..]);
      assert kept[0] + "/" + (rest + "/" + e) == kept[0] + "/" + rest + "/" + e;
    }
  }

  predicate PlainFile(file: string) {
    file != "" && file != "." && file != ".." && '/' !in file
  }

  /** Joining a directory and a plain file name: the cleaned directory, a slash, the file. */
  lemma JoinPathFile(dir: string, file: string)
    requires dir != "" && PlainFile(file)
    ensures JoinPath(dir, file) ==
            if Clean(dir) == "/" then "/" + file
            else if Clean(dir) == "." then file
            else Clean(dir) + "/" + file
  {
    var p := dir + "/" + file;
    SplitAppend(dir, '/', file);
    SplitNone(file, '/');
    var elements := Split(dir, "/");
    assert Split(p, "/") == elements + [file];
    assert (elements + [file])[..|elements|] == elements;
    var kept := CleanElements(elements, Rooted(dir));
    assert Rooted(p) == Rooted(dir) by { assert p[0] == dir[0]; }
    assert CleanElements(Split(p, "/"), Rooted(p)) == kept + [file];
    JoinSnoc(kept, file);
    SplitEntries(dir, '/');
    CleanedForm(elements, Rooted(dir));
    assert Clean(p) == if Rooted(dir) then "/" + Unsplit(kept + [file]) else Unsplit(kept + [file]);
    FileAfter(Unsplit(kept), file);
  }

  lemma FileAfter(body: string, file: string)
    ensures "/" + (body + "/" + file) == "/" + body + "/" + file
    ensures "/" + body == "/" <==> body == ""
    ensures ("/" + body)[0] == '/' && "/" + body != "."
  {
    assert ("/" + body)[1..] == body;
  }

  predicate PlainElement(e: string) {
    e != "" && e != "." && '/' !in e
  }

  /** Kept elements are plain, so the kept path is empty only when nothing is kept, and it is never a
      lone "." or "/". */
  lemma {:induction false} CleanedForm(elements: seq<string>, rooted: bool)
    requires forall i :: 0 <= i < |elements| ==> '/' !in elements[i]
    ensures forall i :: 0 <= i < |CleanElements(elements, rooted)| ==> PlainElement(CleanElements(elements, rooted)[i])
    ensures Unsplit(CleanElements(elements, rooted)) == "" <==> CleanElements(elements, rooted) == []
    ensures Unsplit(CleanElements(elements, rooted)) != "." && Unsplit(CleanElements(elements, rooted)) != "/"
  {
    if elements != [] {
      CleanedForm(elements[..|elements| - 1], rooted);
    }
    UnsplitForm(CleanElements(elements, rooted));
  }

  lemma UnsplitForm(kept: seq<string>)
    requires forall i :: 0 <= i < |kept| ==> PlainElement(kept[i])
    ensures Unsplit(kept) == "" <==> kept == []
    ensures Unsplit(kept) != "." && Unsplit(kept) != "/"
  {
    if |kept| > 1 {
      assert |Join(kept, "/")| > 1;
    } else if |kept| == 1 {
      assert "/"[0] in "/";
    }
  }

  /* ---------- The rules of path.Clean ---------- */

  /** Elements that leave what is kept as it is may be left out. */
  lemma {:induction false} CleanDrop(a: seq<string>, mid: seq<string>, b: seq<string>, rooted: bool)
    requires CleanElements(a + mid, rooted) == CleanElements(a, rooted)
    ensures CleanElements(a + mid + b, rooted) == CleanElements(a + b, rooted)
    decreases |b|
  {
    if b == [] {
      assert a + mid + b == a + mid && a + b == a;
    } else {
      var n := |b| - 1;
      CleanDrop(a, mid, b[..n], rooted);
      assert (a + mid + b)[..|a + mid + b| - 1] == a + mid + b[..n] && (a + b)[..|a + b| - 1] == a + b[..n];
    }
  }

  lemma CleanSnoc(a: seq<string>, e: string, rooted: bool)
    ensures CleanElements(a + [e], rooted) == Push(CleanElements(a, rooted), e, rooted)
  {
    assert (a + [e])[..|a|] == a;
  }

  lemma CleanWithout(p: string, mid: string, q: string)
    requires p != ""
    requires CleanElements(Split(p, "/") + Split(mid, "/"), Rooted(p)) == CleanElements(Split(p, "/"), Rooted(p))
    ensures Clean(p + "/" + mid + "/" + q) == Clean(p + "/" + q)
  {
    SplitAppend(p, '/', q);
    SplitAppend(p, '/', mid);
    SplitAppend(p + "/" + mid, '/', q);
    CleanDrop(Split(p, "/"), Split(mid, "/"), Split(q, "/"), Rooted(p));
    assert (p + "/" + q)[0] == (p + "/" + mid + "/" + q)[0] == p[0];
  }

  /** Doubled slashes and "." elements are dropped, and ".." takes away the plain element before it. */
  lemma CleanRules(p: string, e: string, q: string)
    requires p != "" && PlainFile(e)
    ensures Clean(p + "/" + "" + "/" + q) == Clean(p + "/" + q)
    ensures Clean(p + "/" + "." + "/" + q) == Clean(p + "/" + q)
    ensures Clean(p + "/" + (e + "/" + "..") + "/" + q) == Clean(p + "/" + q)
  {
    var a := Split(p, "/");
    SplitNone("", '/');
    SplitNone(".", '/');
    CleanSnoc(a, "", Rooted(p));
    CleanWithout(p, "", q);
    CleanSnoc(a, ".", Rooted(p));
    CleanWithout(p, ".", q);
    CleanParent(p, e, q);
  }

  lemma CleanParent(p: string, e: string, q: string)
    requires p != "" && PlainFile(e)
    ensures Clean(p + "/" + (e + "/" + "..") + "/" + q) == Clean(p + "/" + q)
  {
    var a := Split(p, "/");
    SplitNone(e, '/');
    SplitNone("..", '/');
    SplitAppend(e, '/', "..");
    CleanSnoc(a, e, Rooted(p));
    CleanSnoc(a + [e], "..", Rooted(p));
    assert a + ([e] + [".."]) == a + [e] + [".."];
    CleanWithout(p, e + "/" + "..", q);
  }

  /** ".." at the root is dropped. */
  lemma CleanRoot(q: string)
    ensures Clean("/" + ".." + "/" + q) == Clean("/" + q)
  {
    SplitNone("", '/');
    SplitNone("..", '/');
    SplitAppend("", '/', q);
    SplitAppend("", '/', "..");
    SplitAppend("/..", '/', q);
    CleanSnoc([""], "..", true);
    CleanDrop([""], [".."], Split(q, "/"), true);
    assert "" + "/" + q == "/" + q && "" + "/" + ".." == "/..";
  }

  /** A rooted path of plain elements is clean already. */
  lemma CleanFixed(elements: seq<string>)
    requires elements != [] && forall i :: 0 <= i < |elements| ==> PlainFile(elements[i])
    ensures Clean("/" + Join(elements, "/")) == "/" + Join(elements, "/")
  {
    SplitRooted(Join(elements, "/"));
    SplitElements(elements);
    RootedKept(elements);
    CleanIs("/" + Join(elements, "/"), elements);
  }

  lemma RootedKept(elements: seq<string>)
    requires forall i :: 0 <= i < |elements| ==> PlainFile(elements[i])
    ensures CleanElements([""] + elements, true) == elements
  {
    CleanDrop([], [""], elements, true);
    CleanSnoc([], "", true);
    PlainKept(elements);
    assert [] + [""] + elements == [""] + elements && [] + elements == elements;
  }

  lemma CleanIs(p: string, kept: seq<string>)
    requires Rooted(p) && CleanElements(Split(p, "/"), true) == kept && kept != []
    ensures Clean(p) == "/" + Join(kept, "/")
  {
  }

  lemma SplitRooted(body: string)
    ensures Split("/" + body, "/") == [""] + Split(body, "/")
  {
    SplitNone("", '/');
    SplitAppend("", '/', body);
    assert "" + "/" + body == "/" + body;
  }

  lemma {:induction false} PlainKept(elements: seq<string>)
    requires forall i :: 0 <= i < |elements| ==> PlainFile(elements[i])
    ensures CleanElements(elements, true) == elements
  {
    if elements != [] {
      PlainKept(elements[..|elements| - 1]);
    }
  }

  lemma {:induction false} SplitElements(elements: seq<string>)
    requires elements != [] && forall i :: 0 <= i < |elements| ==> '/' !in elements[i]
    ensures Split(Join(elements, "/"), "/") == elements
  {
    SplitNone(elements[0], '/');
    if |elements| == 1 {
      assert elements == [elements[0]];
    } else {
      SplitElements(elements[1..]);
      SplitAppend(elements[0], '/', Join(elements[1..], "/"));
      assert [elements[0]] + elements[1..] == elements;
    }
  }
}
