/** When the four replace-all passes amount to one simultaneous substitution: each of the four conditions
    is exact, since an unsafe block, destination, template or path is made to differ by safe other parts. */
module TemplateConditions {
  import opened Text
  import opened Templates

  /* ---------- Erasing one placeholder ---------- */

  /** Replacing a placeholder by itself changes nothing. */
  lemma {:induction false} ReplaceSelf(s: string, t: string)
    requires t != ""
    ensures ReplaceAll(s, t, t) == s
    decreases |s|
  {
    if s != "" {
      if t <= s {
        ReplaceSelf(s[|t|..], t);
        assert t + s[|t|..] == s;
      } else {
        ReplaceSelf(s[1..], t);
        assert [s[0]] + s[1..] == s;
      }
    }
  }

  /** What is left of a text when the placeholder is erased. */
  function Kept(s: string, h: Hole): nat {
    |ReplaceAll(s, Tag(h), "")|
  }

  lemma {:induction false} KeptBound(s: string, h: Hole)
    ensures Kept(s, h) <= |s|
    decreases |s|
  {
    if s != "" {
      if Tag(h) <= s {
        KeptBound(s[|Tag(h)|..], h);
      } else {
        KeptBound(s[1..], h);
      }
    }
  }

  /** Erasing the placeholder from two texts put together leaves at most what it leaves of each. */
  lemma {:induction false} KeptAppend(x: string, y: string, h: Hole)
    ensures Kept(x + y, h) <= Kept(x, h) + Kept(y, h)
    decreases |x|
  {
    if x == "" {
      assert x + y == y;
    } else if Tag(h) <= x {
      EraseTag(x, y, Tag(h));
      KeptAppend(x[|Tag(h)|..], y, h);
    } else if Tag(h) <= x + y {
      KeptStraddling(x, y, h);
    } else {
      EraseNext(x, y, Tag(h));
      KeptAppend(x[1..], y, h);
    }
  }

  lemma EraseTag(x: string, y: string, t: string)
    requires t != "" && t <= x
    ensures ReplaceAll(x + y, t, "") == ReplaceAll(x[|t|..] + y, t, "")
    ensures ReplaceAll(x, t, "") == ReplaceAll(x[|t|..], t, "")
  {
    assert (x + y)[|t|..] == x[|t|..] + y;
  }

  lemma EraseNext(x: string, y: string, t: string)
    requires t != "" && x != "" && !(t <= x) && !(t <= x + y)
    ensures |ReplaceAll(x + y, t, "")| == 1 + |ReplaceAll(x[1..] + y, t, "")|
    ensures |ReplaceAll(x, t, "")| == 1 + |ReplaceAll(x[1..], t, "")|
  {
    assert (x + y)[1..] == x[1..] + y;
  }

  /** The part of a placeholder that lies in y opens no other one. */
  lemma KeptStraddling(x: string, y: string, h: Hole)
    requires x != "" && Tag(h) <= x + y && !(Tag(h) <= x)
    ensures Kept(x + y, h) <= Kept(y, h)
  {
    if |Tag(h)| <= |x| {
      PrefixOfFront(x, Tag(h), y);
    }
    var n := |Tag(h)| - |x|;
    assert y == y[..n] + y[n..] && (x + y)[|Tag(h)|..] == y[n..];
    EndPlain(h, |x|);
    assert y[..n] == (x + y)[..|Tag(h)|][|x|..] == Tag(h)[|x|..];
    NoBracketSettled(y[..n]);
    SettledPasses(y[..n], h, "", y[n..]);
  }

  /** Erasing the placeholder from a filled text erases at least its holes. */
  lemma {:induction false} KeptFill(pieces: seq<Piece>, v: Values, h: Hole)
    requires v.Get(h) == Tag(h)
    ensures Kept(Fill(pieces, v), h) <= |Fill(pieces, v.Put(h, ""))|
    decreases |pieces|
  {
    if pieces != [] {
      var head := match pieces[0] case Literal(t) => t case Gap(g) => v.Get(g);
      KeptFill(pieces[1..], v, h);
      KeptAppend(head, Fill(pieces[1..], v), h);
      KeptBound(head, h);
      if pieces[0] == Gap(h) {
        TagRewrites(h, "");
        RewritesAll(Tag(h), h, "", "");
      }
    }
  }

  /* ---------- Completing a half-open placeholder ---------- */

  /** Unsettled text and the bracket-free end that completes the placeholder it opens. */
  lemma Completion(x: string, h: Hole) returns (a: string, tail: string, b: string)
    requires !SettledFor(x, h)
    ensures x + tail == a + Tag(h) + b && '<' !in tail
  {
    var i :| 0 <= i < |x| && Comparable(x[i..], Tag(h));
    a := x[..i];
    if Tag(h) <= x[i..] {
      tail, b := "", x[i + |Tag(h)|..];
      FoundAt(x, i, Tag(h));
    } else {
      tail, b := Tag(h)[|x| - i..], "";
      EndPlain(h, |x| - i);
      CompletedAt(x, i, Tag(h));
    }
  }

  lemma FoundAt(x: string, i: nat, t: string)
    requires i < |x| && t <= x[i..]
    ensures x + "" == x[..i] + t + x[i + |t|..]
  {
    assert x[i..] == t + x[i..][|t|..];
    assert x == x[..i] + x[i..];
  }

  lemma CompletedAt(x: string, i: nat, t: string)
    requires i < |x| && x[i..] <= t
    ensures x + t[|x| - i..] == x[..i] + t + ""
  {
    assert x == x[..i] + x[i..];
    assert t == x[i..] + t[|x| - i..];
  }

  lemma EndPlain(h: Hole, n: nat)
    requires 0 < n <= |Tag(h)|
    ensures '<' !in Tag(h)[n..]
  {
    forall j | 0 < j < |Tag(h)| {
      TagOpensOnce(h, j);
    }
    PlainFrom(Tag(h), n);
  }

  lemma PlainFrom(t: string, n: nat)
    requires 0 < n <= |t| && forall j :: 0 < j < |t| ==> t[j] != '<'
    ensures '<' !in t[n..]
  {
  }

  /** Wherever it stands, the placeholder is erased. */
  lemma FoundShrinks(x: string, a: string, b: string, h: Hole)
    requires x == a + Tag(h) + b
    ensures Kept(x, h) < |x|
  {
    KeptAppend(a + Tag(h), b, h);
    KeptAppend(a, Tag(h), h);
    KeptBound(a, h);
    KeptBound(b, h);
    TagRewrites(h, "");
    RewritesAll(Tag(h), h, "", "");
    TagStart(h);
  }

  /** Completed between two filled texts, the placeholder is erased although no hole stands there. */
  lemma CompletedShrinks(before: seq<Piece>, x: string, after: seq<Piece>, v: Values, h: Hole)
    requires v.Get(h) == Tag(h) && Kept(x, h) < |x|
    ensures Kept(Fill(before, v) + x + Fill(after, v), h) <
            |Fill(before, v.Put(h, "")) + x + Fill(after, v.Put(h, ""))|
  {
    KeptFill(before, v, h);
    KeptFill(after, v, h);
    KeptAppend(Fill(before, v) + x, Fill(after, v), h);
    KeptAppend(Fill(before, v), x, h);
  }

  lemma {:induction false} FillAppend(a: seq<Piece>, b: seq<Piece>, v: Values)
    ensures Fill(a + b, v) == Fill(a, v) + Fill(b, v)
    decreases |a|
  {
    if a == [] {
      assert a + b == b;
    } else {
      FillAppend(a[1..], b, v);
      assert (a + b)[1..] == a[1..] + b;
    }
  }

  /** An unguarded literal, and the hole after it. */
  lemma {:induction false} FindOpen(pieces: seq<Piece>, filled: set<Hole>, h: Hole) returns (i: nat)
    requires !Guarded(pieces, filled, h)
    ensures i + 1 < |pieces| && pieces[i].Literal? && pieces[i + 1].Gap? && pieces[i + 1].hole in filled
    ensures !SettledFor(pieces[i].text, h)
    decreases |pieces|
  {
    if Guarded(pieces[1..], filled, h) {
      i := 0;
    } else {
      var j := FindOpen(pieces[1..], filled, h);
      assert pieces[1..][j] == pieces[j + 1] && pieces[1..][j + 1] == pieces[j + 2];
      i := j + 1;
    }
  }

  /** A value for a hole of the set that makes erasing the placeholder erase too much. */
  lemma OpenShrinks(pieces: seq<Piece>, filled: set<Hole>, h: Hole) returns (g: Hole, tail: string)
    requires !Guarded(pieces, filled, h) && h !in filled
    ensures g in filled && '<' !in tail
    ensures Shrinks(pieces, TAGS.Put(g, tail), h)
  {
    var i := FindOpen(pieces, filled, h);
    var a, t, b := Completion(pieces[i].text, h);
    g, tail := pieces[i + 1].hole, t;
    PutGet(TAGS, g, tail);
    FoundShrinks(pieces[i].text + tail, a, b, h);
    OpenAt(pieces, i, TAGS.Put(g, tail), h);
  }

  lemma PutGet(v: Values, h: Hole, x: string)
    ensures forall g :: v.Put(h, x).Get(g) == if g == h then x else v.Get(g)
  {
  }

  /** Erasing the placeholder erases more than its holes. */
  predicate Shrinks(pieces: seq<Piece>, v: Values, h: Hole) {
    Kept(Fill(pieces, v), h) < |Fill(pieces, v.Put(h, ""))|
  }

  lemma OpenAt(pieces: seq<Piece>, i: nat, v: Values, h: Hole)
    requires i + 1 < |pieces| && pieces[i].Literal? && pieces[i + 1].Gap? && pieces[i + 1].hole != h
    requires v.Get(h) == Tag(h)
    requires var x := pieces[i].text + v.Get(pieces[i + 1].hole); Kept(x, h) < |x|
    ensures Shrinks(pieces, v, h)
  {
    PutGet(v, h, "");
    CompletedShrinks(pieces[..i], pieces[i].text + v.Get(pieces[i + 1].hole), pieces[i + 2..], v, h);
    FillAround(pieces, i, v);
    FillAround(pieces, i, v.Put(h, ""));
  }

  lemma FillAround(pieces: seq<Piece>, i: nat, v: Values)
    requires i + 1 < |pieces| && pieces[i].Literal? && pieces[i + 1].Gap?
    ensures Fill(pieces, v) ==
            Fill(pieces[..i], v) + (pieces[i].text + v.Get(pieces[i + 1].hole)) + Fill(pieces[i + 2..], v)
  {
    var rest := pieces[i..];
    FillAppend(pieces[..i], rest, v);
    assert pieces == pieces[..i] + rest;
    assert rest[1..][1..] == pieces[i + 2..] && rest[1] == pieces[i + 1];
    assert Fill(rest[1..], v) == v.Get(pieces[i + 1].hole) + Fill(pieces[i + 2..], v);
  }

  /* ---------- Small safe blocks and values ---------- */

  /** With every other placeholder replaced by itself, only two passes matter. */
  lemma TwoPasses(block: string, g: Hole, x: string, h: Hole, y: string)
    requires g in Earlier(h)
    ensures Render(block, TAGS.Put(g, x).Put(h, y)) == ReplaceAll(ReplaceAll(block, Tag(g), x), Tag(h), y)
  {
    ReplaceSelf(block, DESTINATION_TAG);
    ReplaceSelf(block, CONTENT_TAG);
    var b := ReplaceAll(block, Tag(g), x);
    ReplaceSelf(b, CONTENT_TAG);
    ReplaceSelf(b, PATH_TAG);
    ReplaceSelf(ReplaceAll(b, Tag(h), y), PATH_TAG);
    ReplaceSelf(ReplaceAll(b, Tag(h), y), COMMAND_TAG);
  }

  lemma {:induction false} CutPlain(before: string, s: string)
    requires '<' !in s
    ensures Cut(before, s) == [Literal(before + s)]
    decreases |s|
  {
    if s == "" {
      assert before + s == before;
    } else {
      NoHole(s);
      CutPlain(before + [s[0]], s[1..]);
      assert before + [s[0]] + s[1..] == before + s;
    }
  }

  lemma NoHole(s: string)
    requires s != "" && s[0] != '<'
    ensures HoleAt(s).None?
  {
    HoleAtTag(s);
    forall h { TagStart(h); }
  }

  /** A block or a template of one hole and an end without brackets is safe. */
  lemma OneHole(g: Hole, tail: string)
    requires '<' !in tail
    ensures Pieces(Tag(g) + tail) == [Literal(""), Gap(g), Literal(tail)]
    ensures BlockSafe(Tag(g) + tail) && ContentSafe(Tag(g) + tail)
    ensures forall v: Values :: Fill(Pieces(Tag(g) + tail), v) == v.Get(g) + tail
  {
    HoleAtIs(g, tail);
    CutPlain("", tail);
    assert (Tag(g) + tail)[|Tag(g)|..] == tail && "" + tail == tail;
    assert [Literal(""), Gap(g)] + [Literal(tail)] == [Literal(""), Gap(g), Literal(tail)];
    OneHoleGuarded(g, tail);
    forall v: Values {
      FillOneHole(g, tail, v);
    }
  }

  lemma OneHoleGuarded(g: Hole, tail: string)
    requires '<' !in tail
    ensures BlockGuarded([Literal(""), Gap(g), Literal(tail)]) && TemplateGuarded([Literal(""), Gap(g), Literal(tail)])
  {
    var pieces := [Literal(""), Gap(g), Literal(tail)];
    NoBracketSettled(tail);
    assert Settled("");
    SoundSafePieces(pieces);
  }

  lemma FillOneHole(g: Hole, tail: string, v: Values)
    ensures Fill([Literal(""), Gap(g), Literal(tail)], v) == v.Get(g) + tail
  {
    var pieces := [Literal(""), Gap(g), Literal(tail)];
    assert pieces[1..] == [Gap(g), Literal(tail)] && pieces[1..][1..] == [Literal(tail)];
    assert [Literal(tail)][1..] == [];
    assert Fill([Literal(tail)], v) == tail;
    assert Fill(pieces[1..], v) == v.Get(g) + tail;
  }

  lemma HoleAtIs(g: Hole, tail: string)
    ensures HoleAt(Tag(g) + tail) == Some(g)
  {
    var s := Tag(g) + tail;
    HoleAtTag(s);
    assert Tag(g) <= s;
    var h := HoleAt(s).value;
    if h != g {
      TagsDiffer(h, g);
      ComparablePrefix(Tag(g), tail, Tag(h));
    }
  }

  /** Text without brackets is safe everywhere, and cut into itself. */
  lemma PlainSafe(s: string)
    requires '<' !in s
    ensures DestinationSafe(s) && ContentSafe(s) && PathSafe(s)
    ensures forall v: Values :: Fill(Pieces(s), v) == s
  {
    NoBracketSettled(s);
    CutPlain("", s);
    assert "" + s == s && [Literal(s)][1..] == [];
  }

  /** So are the placeholders themselves in their own places. */
  lemma TagsSafe()
    ensures ValuesSafe(TAGS)
    ensures forall v: Values :: Fill(Pieces(CONTENT_TAG), v) == v.content
  {
    TagsApart(Content, Destination);
    TagsApart(SecretsPath, Destination);
    TagsApart(Command, Destination);
    TagsApart(Command, SecretsPath);
    OneHole(Content, "");
    assert CONTENT_TAG + "" == CONTENT_TAG;
    forall v: Values
      ensures Fill(Pieces(CONTENT_TAG), v) == v.content
    {
      assert v.content + "" == v.content;
    }
  }

  lemma ReplaceHole(g: Hole, tail: string, x: string)
    requires '<' !in tail
    ensures ReplaceAll(Tag(g) + tail, Tag(g), x) == x + tail
  {
    TagRewrites(g, x);
    NoBracketSettled(tail);
    SettledRewrites(tail, g, x);
    RewritesAppend(Tag(g), tail, g, x, x, tail);
    RewritesAll(Tag(g) + tail, g, x, x + tail);
  }

  /* ---------- The conditions are exact ---------- */

  /** A destination or a path that opens a later placeholder is completed by a safe block. */
  lemma ValueDisagrees(g: Hole, x: string, h: Hole) returns (block: string, v: Values)
    requires g in {Destination, SecretsPath} && g in Earlier(h) && !SettledFor(x, h)
    ensures BlockSafe(block) && !Agree(block, v) && v == TAGS.Put(g, x).Put(h, "")
  {
    var a, tail, b := Completion(x, h);
    block, v := Tag(g) + tail, TAGS.Put(g, x).Put(h, "");
    OneHole(g, tail);
    HoleCompleted(g, x, h, a, tail, b);
    OneHoleFilled(g, tail, v, x);
  }

  lemma HoleCompleted(g: Hole, x: string, h: Hole, a: string, tail: string, b: string)
    requires g in Earlier(h) && '<' !in tail && x + tail == a + Tag(h) + b
    ensures |Render(Tag(g) + tail, TAGS.Put(g, x).Put(h, ""))| < |x + tail|
  {
    TwoPasses(Tag(g) + tail, g, x, h, "");
    ReplaceHole(g, tail, x);
    FoundShrinks(x + tail, a, b, h);
  }

  lemma OneHoleFilled(g: Hole, tail: string, v: Values, x: string)
    requires g in {Destination, SecretsPath} && '<' !in tail && v.Get(g) == x
    ensures Fill(Pieces(Tag(g) + tail), Simultaneous(Pieces(v.content), v)) == x + tail
  {
    OneHole(g, tail);
  }

  /** The condition on the destination is exact. */
  lemma DestinationNeeded(d: string)
    ensures DestinationSafe(d) <==>
      forall block, v: Values ::
        v.destination == d && BlockSafe(block) && ContentSafe(v.content) && PathSafe(v.path) ==> Agree(block, v)
  {
    if DestinationSafe(d) {
      forall block, v: Values | v.destination == d && BlockSafe(block) && ContentSafe(v.content) && PathSafe(v.path) {
        PassesAreSimultaneous(block, v);
      }
    } else {
      var h :| h in {Content, SecretsPath, Command} && !SettledFor(d, h);
      var block, v := ValueDisagrees(Destination, d, h);
      TagsSafe();
      PlainSafe("");
      assert v.destination == d && ContentSafe(v.content) && PathSafe(v.path);
    }
  }

  /** The condition on the path is exact. */
  lemma PathNeeded(p: string)
    ensures PathSafe(p) <==>
      forall block, v: Values ::
        v.path == p && BlockSafe(block) && ContentSafe(v.content) && DestinationSafe(v.destination) ==> Agree(block, v)
  {
    if PathSafe(p) {
      forall block, v: Values |
        v.path == p && BlockSafe(block) && ContentSafe(v.content) && DestinationSafe(v.destination)
      {
        PassesAreSimultaneous(block, v);
      }
    } else {
      var block, v := ValueDisagrees(SecretsPath, p, Command);
      TagsSafe();
      assert v.path == p && ContentSafe(v.content) && DestinationSafe(v.destination);
    }
  }

  /** A template literal before its path hole, completed by the path. */
  lemma InnerDisagrees(c: string) returns (v: Values)
    requires !Guarded(Pieces(c), {SecretsPath}, Command)
    ensures v.content == c && !Agree(CONTENT_TAG, v) && DestinationSafe(v.destination) && PathSafe(v.path)
  {
    var g, tail := OpenShrinks(Pieces(c), {SecretsPath}, Command);
    v := TAGS.(content := c, path := tail, command := "");
    PlainSafe(tail);
    TagsSafe();
    InnerRender(c, tail);
    HolePass(c, SecretsPath, tail);
  }

  lemma InnerRender(c: string, p: string)
    ensures Render(CONTENT_TAG, TAGS.(content := c, path := p, command := "")) ==
            ReplaceAll(ReplaceAll(c, PATH_TAG, p), COMMAND_TAG, "")
  {
    ReplaceSelf(CONTENT_TAG, DESTINATION_TAG);
    ReplaceHole(Content, "", c);
    assert CONTENT_TAG + "" == CONTENT_TAG && c + "" == c;
  }

  /** One hole filled by its pass, the others left. */
  lemma HolePass(s: string, g: Hole, x: string)
    ensures ReplaceAll(s, Tag(g), x) == Fill(Pieces(s), TAGS.Put(g, x))
  {
    FillPieces(s);
    FirstPass(Pieces(s), TAGS, g, x);
  }

  lemma FirstPass(pieces: seq<Piece>, v: Values, g: Hole, x: string)
    requires WellCut(pieces) && PartlyFilled(v, {}, g)
    ensures ReplaceAll(Fill(pieces, v), Tag(g), x) == Fill(pieces, v.Put(g, x))
  {
    GuardedNone(pieces, g);
    ValuesRewrite(v, {}, g, x);
    PassWhole(pieces, v, v.Put(g, x), {}, g, x);
  }

  /** The end of a template, completed by what the block puts after it. */
  lemma EndDisagrees(c: string, h: Hole) returns (block: string, v: Values)
    requires h in {SecretsPath, Command} && !EndSettled(Pieces(c), h)
    ensures v.content == c && BlockSafe(block) && !Agree(block, v) && v == TAGS.Put(Content, c).Put(h, "")
  {
    var pieces := Pieces(c);
    var n := |pieces| - 1;
    var a, tail, b := Completion(pieces[n].text, h);
    block, v := CONTENT_TAG + tail, TAGS.Put(Content, c).Put(h, "");
    OneHole(Content, tail);
    TwoPasses(block, Content, c, h, "");
    ReplaceHole(Content, tail, c);
    FoundShrinks(pieces[n].text + tail, a, b, h);
    CompletedShrinks(pieces[..n], pieces[n].text + tail, [], TAGS, h);
    FillPieces(c);
    FillEnd(pieces, TAGS, tail);
    FillEnd(pieces, TAGS.Put(h, ""), tail);
  }

  lemma FillEnd(pieces: seq<Piece>, v: Values, tail: string)
    requires pieces != [] && pieces[|pieces| - 1].Literal?
    ensures Fill(pieces, v) + tail ==
            Fill(pieces[..|pieces| - 1], v) + (pieces[|pieces| - 1].text + tail) + Fill([], v)
  {
    var n := |pieces| - 1;
    FillAppend(pieces[..n], [pieces[n]], v);
    assert pieces == pieces[..n] + [pieces[n]] && [pieces[n]][1..] == [];
    assert Fill([pieces[n]], v) == pieces[n].text;
  }

  /** The condition on the template is exact. */
  lemma ContentNeeded(c: string)
    ensures ContentSafe(c) <==>
      forall block, v: Values ::
        v.content == c && BlockSafe(block) && DestinationSafe(v.destination) && PathSafe(v.path) ==> Agree(block, v)
  {
    if ContentSafe(c) {
      forall block, v: Values |
        v.content == c && BlockSafe(block) && DestinationSafe(v.destination) && PathSafe(v.path)
      {
        PassesAreSimultaneous(block, v);
      }
    } else if !Guarded(Pieces(c), {SecretsPath}, Command) {
      var v := InnerDisagrees(c);
      OneHole(Content, "");
      assert CONTENT_TAG + "" == CONTENT_TAG;
    } else {
      var h :| h in {SecretsPath, Command} && !EndSettled(Pieces(c), h);
      var block, v := EndDisagrees(c, h);
      TagsSafe();
      PlainSafe("");
      assert DestinationSafe(v.destination) && PathSafe(v.path);
    }
  }

  /** A block literal before a hole, completed by the hole's value. */
  lemma BlockDisagrees(block: string, h: Hole) returns (v: Values)
    requires !Guarded(Pieces(block), Earlier(h), h)
    ensures ValuesSafe(v) && !Agree(block, v)
  {
    var g, tail := OpenShrinks(Pieces(block), Earlier(h), h);
    v := TAGS.Put(g, tail).Put(h, "");
    PutSafe(g, tail, h);
    HolePass(block, g, tail);
    TwoPasses(block, g, tail, h, "");
  }

  /** Values that are placeholders or bracket-free text are safe, and fill no template. */
  lemma PutSafe(g: Hole, tail: string, h: Hole)
    requires g in Earlier(h) && '<' !in tail
    ensures var v := TAGS.Put(g, tail).Put(h, ""); ValuesSafe(v) && Simultaneous(Pieces(v.content), v) == v
  {
    TagsSafe();
    PlainSafe(tail);
    PlainSafe("");
  }

  /** The condition on the block is exact. */
  lemma BlockNeeded(block: string)
    ensures BlockSafe(block) <==> forall v: Values :: ValuesSafe(v) ==> Agree(block, v)
  {
    if BlockSafe(block) {
      forall v: Values | ValuesSafe(v) {
        PassesAreSimultaneous(block, v);
      }
    } else {
      var h :| !Guarded(Pieces(block), Earlier(h), h);
      var v := BlockDisagrees(block, h);
    }
  }

  /* ---------- Two concrete differences ---------- */

  const HALF := "<VSI_SECRETS_TEMPLATE_"

  function HalfOpen(): seq<Piece> {
    [Literal(HALF), Gap(Destination), Literal(">")]
  }

  lemma FillHalfOpen(v: Values)
    ensures Fill(HalfOpen(), v) == HALF + (v.destination + ">")
  {
    assert HalfOpen()[1..][1..] == [Literal(">")] && [Literal(">")][1..] == [];
    assert Fill([Literal(">")], v) == ">";
    assert HalfOpen()[1..][0] == Gap(Destination);
  }

  /** A text whose only bracket stands first and that differs from the tag soon holds no part of it. */
  lemma DiffersSoon(s: string, tag: string, n: nat)
    requires n < |s| && n < |tag| && s[n] != tag[n] && tag[0] == '<'
    requires forall i :: 0 < i < |s| ==> s[i] != '<'
    ensures forall i :: 0 <= i < |s| ==> !Comparable(s[i..], tag)
  {
    forall i | 0 <= i < |s|
      ensures !Comparable(s[i..], tag)
    {
      assert i == 0 ==> s[i..][n] == s[n];
      assert i > 0 ==> s[i..][0] == s[i];
    }
  }

  lemma HalfSettled()
    ensures SettledFor(HALF, Destination)
  {
    DiffersSoon(HALF, DESTINATION_TAG, 13);
  }

  /** A literal that half-opens a placeholder lets the destination complete it: the second pass then
      fires where the block has no content placeholder. */
  lemma HalfOpenLiteral(v: Values)
    requires v.destination == "CONTENT" && '<' !in v.content
    ensures Render(Fill(HalfOpen(), TAGS), v) == v.content
    ensures '<' in Fill(HalfOpen(), v)
  {
    FillHalfOpen(v);
    FillHalfOpen(TAGS);
    HalfOpenPass(v.destination);
    HalfOpenCompleted(v.destination);
    LaterPassesOnContent(v);
  }

  lemma HalfOpenPass(d: string)
    ensures ReplaceAll(HALF + (DESTINATION_TAG + ">"), DESTINATION_TAG, d) == HALF + (d + ">")
  {
    HalfSettled();
    SettledRewrites(HALF, Destination, d);
    TagRewrites(Destination, d);
    NoBracketSettled(">");
    SettledRewrites(">", Destination, d);
    RewritesAppend(DESTINATION_TAG, ">", Destination, d, d, ">");
    RewritesAppend(HALF, DESTINATION_TAG + ">", Destination, d, HALF, d + ">");
    RewritesAll(HALF + (DESTINATION_TAG + ">"), Destination, d, HALF + (d + ">"));
  }

  lemma HalfOpenCompleted(d: string)
    requires d == "CONTENT"
    ensures HALF + (d + ">") == CONTENT_TAG && '<' in HALF + (d + ">")
  {
    assert (HALF + (d + ">"))[0] == '<';
  }

  lemma LaterPassesOnContent(v: Values)
    requires '<' !in v.content
    ensures ReplaceAll(ReplaceAll(ReplaceAll(CONTENT_TAG, CONTENT_TAG, v.content), PATH_TAG, v.path),
                       COMMAND_TAG, v.command) == v.content
  {
    TagRewrites(Content, v.content);
    RewritesAll(CONTENT_TAG, Content, v.content, v.content);
    NoBracketSettled(v.content);
    SettledRewrites(v.content, SecretsPath, v.path);
    RewritesAll(v.content, SecretsPath, v.path, v.content);
    SettledRewrites(v.content, Command, v.command);
    RewritesAll(v.content, Command, v.command, v.content);
  }

  /** A destination holding a later placeholder is itself rewritten. */
  lemma PlaceholderInDestination(v: Values)
    requires v.destination == COMMAND_TAG
    ensures Render(Fill([Gap(Destination)], TAGS), v) == v.command
    ensures Fill([Gap(Destination)], v) == COMMAND_TAG
  {
    assert [Gap(Destination)][1..] == [];
    TagRewrites(Destination, COMMAND_TAG);
    RewritesAll(DESTINATION_TAG, Destination, COMMAND_TAG, COMMAND_TAG);
    TagsApart(Content, Command);
    SettledRewrites(COMMAND_TAG, Content, v.content);
    RewritesAll(COMMAND_TAG, Content, v.content, COMMAND_TAG);
    TagsApart(SecretsPath, Command);
    SettledRewrites(COMMAND_TAG, SecretsPath, v.path);
    RewritesAll(COMMAND_TAG, SecretsPath, v.path, COMMAND_TAG);
    TagRewrites(Command, v.command);
    RewritesAll(COMMAND_TAG, Command, v.command, v.command);
  }
}
