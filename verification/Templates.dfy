/** Placeholder substitution. The program runs four replace-all passes over a block; the theorem says
    when they amount to one simultaneous substitution. */
module Templates {
  import opened Text

  const DESTINATION_TAG := "<VSI_SECRETS_DESTINATION>"
  const CONTENT_TAG := "<VSI_SECRETS_TEMPLATE_CONTENT>"
  const PATH_TAG := "<VSI_SECRETS_VAULT_SECRETS_PATH>"
  const COMMAND_TAG := "<VSI_SECRETS_TEMPLATE_COMMAND_TO_RUN>"

  datatype Hole = Destination | Content | SecretsPath | Command

  function Tag(h: Hole): string {
    match h
    case Destination => DESTINATION_TAG
    case Content => CONTENT_TAG
    case SecretsPath => PATH_TAG
    case Command => COMMAND_TAG
  }

  /** One value for each hole. */
  datatype Values = Values(destination: string, content: string, path: string, command: string) {
    function Get(h: Hole): string {
      match h
      case Destination => destination
      case Content => content
      case SecretsPath => path
      case Command => command
    }

    function Put(h: Hole, value: string): Values {
      match h
      case Destination => this.(destination := value)
      case Content => this.(content := value)
      case SecretsPath => this.(path := value)
      case Command => this.(command := value)
    }
  }

  /** The assignment that leaves every placeholder in place. */
  const TAGS := Values(DESTINATION_TAG, CONTENT_TAG, PATH_TAG, COMMAND_TAG)

  /** The four passes, in the program's order. */
  function Render(block: string, v: Values): string {
    var b1 := ReplaceAll(block, DESTINATION_TAG, v.destination);
    var b2 := ReplaceAll(b1, CONTENT_TAG, v.content);
    var b3 := ReplaceAll(b2, PATH_TAG, v.path);
    ReplaceAll(b3, COMMAND_TAG, v.command)
  }

  /* ---------- Text cut into literals and holes ---------- */

  datatype Piece = Literal(text: string) | Gap(hole: Hole)

  /** Simultaneous substitution: every hole replaced at once. */
  function Fill(pieces: seq<Piece>, v: Values): string {
    if pieces == [] then ""
    else (match pieces[0] case Literal(t) => t case Gap(h) => v.Get(h)) + Fill(pieces[1..], v)
  }

  function HoleAt(s: string): Option<Hole> {
    if DESTINATION_TAG <= s then Some(Destination)
    else if CONTENT_TAG <= s then Some(Content)
    else if PATH_TAG <= s then Some(SecretsPath)
    else if COMMAND_TAG <= s then Some(Command)
    else None
  }

  lemma HoleAtTag(s: string)
    ensures HoleAt(s).Some? ==> Tag(HoleAt(s).value) <= s
    ensures HoleAt(s).None? ==> forall h :: !(Tag(h) <= s)
  {
    forall h | HoleAt(s).None?
      ensures !(Tag(h) <= s)
    {
      match h case Destination => case Content => case SecretsPath => case Command =>
    }
  }

  /** Cuts s at its placeholders, after the literal text `before`. */
  function Cut(before: string, s: string): seq<Piece>
    decreases |s|
  {
    if s == "" then [Literal(before)]
    else
      match HoleAt(s)
      case Some(h) => [Literal(before), Gap(h)] + Cut("", s[|Tag(h)|..])
      case None => Cut(before + [s[0]], s[1..])
  }

  function Pieces(s: string): seq<Piece> {
    Cut("", s)
  }

  lemma FillTwo(before: string, h: Hole, rest: seq<Piece>)
    ensures Fill([Literal(before), Gap(h)] + rest, TAGS) == before + (Tag(h) + Fill(rest, TAGS))
  {
    var pieces := [Literal(before), Gap(h)] + rest;
    assert pieces[1..] == [Gap(h)] + rest && pieces[1..][1..] == rest;
    assert Fill([Gap(h)] + rest, TAGS) == Tag(h) + Fill(rest, TAGS);
  }

  lemma {:induction false} FillCut(before: string, s: string)
    ensures Fill(Cut(before, s), TAGS) == before + s
    decreases |s|
  {
    if s == "" {
      FillOne(before);
    } else if HoleAt(s).Some? {
      HoleAtTag(s);
      var h := HoleAt(s).value;
      var rest := s[|Tag(h)|..];
      FillCut("", rest);
      FillTwo(before, h, Cut("", rest));
      Glue(before, Tag(h), s);
    } else {
      FillCut(before + [s[0]], s[1..]);
      MoveFirst(before, s);
    }
  }

  lemma MoveFirst(before: string, s: string)
    requires s != ""
    ensures before + [s[0]] + s[1..] == before + s
  {
  }

  lemma FillOne(before: string)
    ensures Fill([Literal(before)], TAGS) == before + ""
  {
    assert [Literal(before)][1..] == [];
  }

  lemma Glue(before: string, t: string, s: string)
    requires t <= s
    ensures before + (t + ("" + s[|t|..])) == before + s
  {
  }

  /* ---------- Settled text ---------- */

  predicate Comparable(a: string, b: string) {
    a <= b || b <= a
  }

  /** No occurrence of the placeholder starts in x, not even one that text put after x would complete. */
  predicate SettledFor(x: string, h: Hole) {
    forall i :: 0 <= i < |x| ==> !Comparable(x[i..], Tag(h))
  }

  predicate Settled(x: string) {
    forall h :: SettledFor(x, h)
  }

  lemma SettledAppend(x: string, y: string)
    requires Settled(x) && Settled(y)
    ensures Settled(x + y)
  {
    forall h, i | 0 <= i < |x + y|
      ensures !Comparable((x + y)[i..], Tag(h))
    {
      if i < |x| {
        assert (x + y)[i..] == x[i..] + y;
        assert SettledFor(x, h) && !Comparable(x[i..], Tag(h));
        if Comparable(x[i..] + y, Tag(h)) {
          ComparablePrefix(x[i..], y, Tag(h));
          assert false;
        }
      } else {
        assert (x + y)[i..] == y[i - |x|..];
        assert SettledFor(y, h);
      }
    }
  }

  lemma ComparablePrefix(a: string, b: string, t: string)
    requires Comparable(a + b, t)
    ensures Comparable(a, t)
  {
    assert (a + b)[..|a|] == a;
    if t <= a + b && |t| <= |a| {
      assert t == (a + b)[..|t|] == a[..|t|];
    } else if t <= a + b {
      assert a == t[..|a|];
    }
  }

  /** Text without '<' is settled: the condition a caller can check on annotation values. */
  lemma NoBracketSettled(x: string)
    requires '<' !in x
    ensures Settled(x)
  {
    forall h, i | 0 <= i < |x|
      ensures !Comparable(x[i..], Tag(h))
    {
      TagStart(h);
      assert x[i..][0] == x[i];
    }
  }

  lemma TagsApart(h: Hole, g: Hole)
    requires h != g
    ensures SettledFor(Tag(g), h)
  {
    forall i | 0 <= i < |Tag(g)|
      ensures !Comparable(Tag(g)[i..], Tag(h))
    {
      if i == 0 {
        TagsDiffer(h, g);
        assert Tag(g)[0..] == Tag(g);
      } else {
        TagOpensOnce(g, i);
        assert Tag(g)[i..][0] == Tag(g)[i];
        TagStart(h);
      }
    }
  }

  lemma TagStart(h: Hole)
    ensures Tag(h) != "" && Tag(h)[0] == '<'
  {
    match h case Destination => case Content => case SecretsPath => case Command =>
  }

  lemma TagOpensOnce(g: Hole, i: nat)
    requires 0 < i < |Tag(g)|
    ensures Tag(g)[i] != '<'
  {
    match g case Destination => case Content => case SecretsPath => case Command =>
  }

  lemma TagsDiffer(h: Hole, g: Hole)
    requires h != g
    ensures !Comparable(Tag(g), Tag(h))
  {
    var i := DifferAt(h, g);
    assert Tag(g)[i] != Tag(h)[i];
  }

  /** A position where two placeholders differ. */
  function DifferAt(h: Hole, g: Hole): (i: nat)
    requires h != g
    ensures i < |Tag(h)| && i < |Tag(g)| && Tag(h)[i] != Tag(g)[i]
  {
    if h.SecretsPath? || g.SecretsPath? then 14
    else if h.Destination? || g.Destination? then 13
    else 25
  }

  /* ---------- One pass ---------- */

  /** Replacing the placeholder turns x into y whatever follows x. */
  ghost predicate Rewrites(x: string, h: Hole, w: string, y: string) {
    forall rest :: ReplaceAll(x + rest, Tag(h), w) == y + ReplaceAll(rest, Tag(h), w)
  }

  lemma {:induction false} SettledPasses(x: string, h: Hole, w: string, rest: string)
    requires SettledFor(x, h)
    ensures ReplaceAll(x + rest, Tag(h), w) == x + ReplaceAll(rest, Tag(h), w)
    decreases |x|
  {
    if x == "" {
      assert x + rest == rest;
    } else {
      assert x[0..] == x && !Comparable(x, Tag(h));
      if Tag(h) <= x + rest {
        ComparablePrefix(x, rest, Tag(h));
        assert false;
      }
      assert forall i :: 0 <= i < |x[1..]| ==> x[1..][i..] == x[i + 1..];
      SettledPasses(x[1..], h, w, rest);
      ReplaceStep(x, Tag(h), w, rest);
    }
  }

  lemma ReplaceStep(x: string, t: string, w: string, rest: string)
    requires x != "" && t != "" && !(t <= x + rest)
    requires ReplaceAll(x[1..] + rest, t, w) == x[1..] + ReplaceAll(rest, t, w)
    ensures ReplaceAll(x + rest, t, w) == x + ReplaceAll(rest, t, w)
  {
    assert (x + rest)[1..] == x[1..] + rest && (x + rest)[0] == x[0];
    assert [x[0]] + x[1..] == x;
  }

  lemma Regroup(a: string, b: string, c: string)
    ensures a + b + c == a + (b + c)
  {
  }

  lemma SettledRewrites(x: string, h: Hole, w: string)
    requires SettledFor(x, h)
    ensures Rewrites(x, h, w, x)
  {
    forall rest { SettledPasses(x, h, w, rest); }
  }

  lemma TagRewrites(h: Hole, w: string)
    ensures Rewrites(Tag(h), h, w, w)
  {
    forall rest
      ensures ReplaceAll(Tag(h) + rest, Tag(h), w) == w + ReplaceAll(rest, Tag(h), w)
    {
      assert (Tag(h) + rest)[|Tag(h)|..] == rest;
    }
  }

  lemma RewritesAll(x: string, h: Hole, w: string, y: string)
    requires Rewrites(x, h, w, y)
    ensures ReplaceAll(x, Tag(h), w) == y
  {
    assert x + "" == x && y + "" == y;
  }

  lemma RewritesApart(x: string, y: string, h: Hole, w: string, x': string, y': string, rest: string)
    requires Rewrites(x, h, w, x') && Rewrites(y, h, w, y')
    ensures ReplaceAll(x + y + rest, Tag(h), w) == x' + y' + ReplaceAll(rest, Tag(h), w)
  {
    Regroup(x, y, rest);
    assert ReplaceAll(x + (y + rest), Tag(h), w) == x' + ReplaceAll(y + rest, Tag(h), w);
    Regroup(x', y', ReplaceAll(rest, Tag(h), w));
  }

  lemma RewritesAppend(x: string, y: string, h: Hole, w: string, x': string, y': string)
    requires Rewrites(x, h, w, x') && Rewrites(y, h, w, y')
    ensures Rewrites(x + y, h, w, x' + y')
  {
    forall rest
      ensures ReplaceAll(x + y + rest, Tag(h), w) == x' + y' + ReplaceAll(rest, Tag(h), w)
    {
      RewritesApart(x, y, h, w, x', y', rest);
    }
  }

  /* ---------- Where a literal may open a placeholder ---------- */

  /** No placeholder lies inside x. */
  predicate Tagless(x: string) {
    forall i :: 0 <= i < |x| ==> HoleAt(x[i..]).None?
  }

  /** The shape of cut text: no literal holds a placeholder, and a literal is followed by a hole. */
  predicate WellCut(pieces: seq<Piece>) {
    pieces != [] ==>
      && (pieces[0].Literal? ==> Tagless(pieces[0].text) && (|pieces| > 1 ==> pieces[1].Gap?))
      && WellCut(pieces[1..])
  }

  lemma {:induction false} CutWell(before: string, s: string)
    requires forall i :: 0 <= i < |before| ==> HoleAt((before + s)[i..]).None?
    ensures WellCut(Cut(before, s))
    decreases |s|
  {
    TaglessHead(before, s);
    if s == "" {
      assert [Literal(before)][1..] == [];
    } else if HoleAt(s).Some? {
      var h := HoleAt(s).value;
      var rest := Cut("", s[|Tag(h)|..]);
      HoleAtTag(s);
      CutWell("", s[|Tag(h)|..]);
      assert ([Literal(before), Gap(h)] + rest)[1..] == [Gap(h)] + rest && ([Gap(h)] + rest)[1..] == rest;
    } else {
      assert before + [s[0]] + s[1..] == before + s && (before + s)[|before|..] == s;
      CutWell(before + [s[0]], s[1..]);
    }
  }

  lemma TaglessHead(x: string, s: string)
    requires forall i :: 0 <= i < |x| ==> HoleAt((x + s)[i..]).None?
    ensures Tagless(x)
  {
    forall i | 0 <= i < |x|
      ensures HoleAt(x[i..]).None?
    {
      assert (x + s)[i..] == x[i..] + s;
      HoleAtTag(x[i..]);
      HoleAtTag((x + s)[i..]);
    }
  }

  /** No literal right before a hole of the set half-opens the placeholder. */
  predicate Guarded(pieces: seq<Piece>, filled: set<Hole>, h: Hole) {
    pieces != [] ==>
      && (pieces[0].Literal? && |pieces| > 1 && pieces[1].Gap? && pieces[1].hole in filled ==>
            SettledFor(pieces[0].text, h))
      && Guarded(pieces[1..], filled, h)
  }

  /** The text does not end in a literal that half-opens the placeholder. */
  predicate EndSettled(pieces: seq<Piece>, h: Hole) {
    pieces != [] && pieces[|pieces| - 1].Literal? ==> SettledFor(pieces[|pieces| - 1].text, h)
  }

  lemma {:induction false} TaglessPasses(x: string, h: Hole, w: string, rest: string)
    requires Tagless(x) && (rest == "" || rest[0] == '<')
    ensures ReplaceAll(x + rest, Tag(h), w) == x + ReplaceAll(rest, Tag(h), w)
    decreases |x|
  {
    if x == "" {
      assert x + rest == rest;
    } else {
      assert x[0..] == x;
      HoleAtTag(x);
      if |x| < |Tag(h)| {
        TagOpensOnce(h, |x|);
        NoneAcross(x, Tag(h), rest);
      } else {
        PrefixOfFront(x, Tag(h), rest);
      }
      assert forall i :: 0 <= i < |x[1..]| ==> x[1..][i..] == x[i + 1..];
      TaglessPasses(x[1..], h, w, rest);
      ReplaceStep(x, Tag(h), w, rest);
    }
  }

  lemma PrefixOfFront(x: string, t: string, rest: string)
    requires |t| <= |x|
    ensures t <= x + rest <==> t <= x
  {
    assert (x + rest)[..|t|] == x[..|t|];
  }

  /** No placeholder that starts in x ends after it when an opening bracket, or nothing, follows x. */
  lemma NoneAcross(x: string, t: string, rest: string)
    requires 0 < |x| < |t| && (rest == "" || rest[0] == '<') && t[|x|] != '<'
    ensures !(t <= x + rest)
  {
    if rest != "" {
      assert (x + rest)[|x|] == rest[0];
    }
  }

  lemma PassLiteral(t: string, h: Hole, w: string, rest: string)
    requires SettledFor(t, h) || (Tagless(t) && (rest == "" || rest[0] == '<'))
    ensures ReplaceAll(t + rest, Tag(h), w) == t + ReplaceAll(rest, Tag(h), w)
  {
    if SettledFor(t, h) {
      SettledPasses(t, h, w, rest);
    } else {
      TaglessPasses(t, h, w, rest);
    }
  }

  /** A pass over cut text some of whose holes are filled: the values are rewritten one by one. */
  lemma {:induction false} PassFill(
    pieces: seq<Piece>, v: Values, v': Values, filled: set<Hole>, h: Hole, w: string, rest: string)
    requires WellCut(pieces) && Guarded(pieces, filled, h) && (rest == "" || EndSettled(pieces, h))
    requires forall g :: Rewrites(v.Get(g), h, w, v'.Get(g))
    requires forall g :: g !in filled ==> v.Get(g) == Tag(g)
    ensures ReplaceAll(Fill(pieces, v) + rest, Tag(h), w) == Fill(pieces, v') + ReplaceAll(rest, Tag(h), w)
    decreases |pieces|
  {
    if pieces == [] {
      assert "" + rest == rest;
    } else {
      var tail := pieces[1..];
      PassFill(tail, v, v', filled, h, w, rest);
      var end := ReplaceAll(rest, Tag(h), w);
      match pieces[0] {
        case Literal(t) =>
          FillStart(tail, v, rest);
          PassLiteral(t, h, w, Fill(tail, v) + rest);
          Regroup(t, Fill(tail, v), rest);
          Regroup(t, Fill(tail, v'), end);
        case Gap(g) =>
          assert Rewrites(v.Get(g), h, w, v'.Get(g));
          assert ReplaceAll(v.Get(g) + (Fill(tail, v) + rest), Tag(h), w) ==
                 v'.Get(g) + ReplaceAll(Fill(tail, v) + rest, Tag(h), w);
          Regroup(v.Get(g), Fill(tail, v), rest);
          Regroup(v'.Get(g), Fill(tail, v'), end);
      }
    }
  }

  /** What follows a literal starts with the next hole's value. */
  lemma FillStart(pieces: seq<Piece>, v: Values, rest: string)
    ensures pieces == [] ==> Fill(pieces, v) + rest == rest
    ensures pieces != [] && pieces[0].Gap? && v.Get(pieces[0].hole) == Tag(pieces[0].hole) ==>
      Fill(pieces, v) + rest != "" && (Fill(pieces, v) + rest)[0] == '<'
  {
    if pieces != [] && pieces[0].Gap? && v.Get(pieces[0].hole) == Tag(pieces[0].hole) {
      TagStart(pieces[0].hole);
      assert (Fill(pieces, v) + rest)[0] == Tag(pieces[0].hole)[0];
    }
  }

  lemma PassRewrites(pieces: seq<Piece>, v: Values, v': Values, filled: set<Hole>, h: Hole, w: string)
    requires WellCut(pieces) && Guarded(pieces, filled, h) && EndSettled(pieces, h)
    requires forall g :: Rewrites(v.Get(g), h, w, v'.Get(g))
    requires forall g :: g !in filled ==> v.Get(g) == Tag(g)
    ensures Rewrites(Fill(pieces, v), h, w, Fill(pieces, v'))
  {
    forall rest {
      PassFill(pieces, v, v', filled, h, w, rest);
    }
  }

  lemma PassWhole(pieces: seq<Piece>, v: Values, v': Values, filled: set<Hole>, h: Hole, w: string)
    requires WellCut(pieces) && Guarded(pieces, filled, h)
    requires forall g :: Rewrites(v.Get(g), h, w, v'.Get(g))
    requires forall g :: g !in filled ==> v.Get(g) == Tag(g)
    ensures ReplaceAll(Fill(pieces, v), Tag(h), w) == Fill(pieces, v')
  {
    PassFill(pieces, v, v', filled, h, w, "");
    assert Fill(pieces, v) + "" == Fill(pieces, v) && Fill(pieces, v') + "" == Fill(pieces, v');
  }

  /* ---------- The theorem ---------- */

  /** The values for the holes of the block: the template has its own path and command filled in. */
  function Simultaneous(template: seq<Piece>, v: Values): Values {
    v.(content := Fill(template, TAGS.(path := v.path, command := v.command)))
  }

  /** The passes amount to one simultaneous substitution. */
  predicate Agree(block: string, v: Values) {
    Render(block, v) == Fill(Pieces(block), Simultaneous(Pieces(v.content), v))
  }

  /** The holes filled before the pass of a placeholder. */
  function Earlier(h: Hole): set<Hole> {
    match h
    case Destination => {}
    case Content => {Destination}
    case SecretsPath => {Destination, Content}
    case Command => {Destination, Content, SecretsPath}
  }

  /** No literal right before a hole half-opens a placeholder replaced later than that hole. */
  predicate BlockGuarded(block: seq<Piece>) {
    forall h :: Guarded(block, Earlier(h), h)
  }

  /** No literal right before the path hole half-opens the command's placeholder, and no placeholder
      replaced after the template is inserted is half-opened at its end. */
  predicate TemplateGuarded(template: seq<Piece>) {
    && Guarded(template, {SecretsPath}, Command)
    && EndSettled(template, SecretsPath) && EndSettled(template, Command)
  }

  predicate BlockSafe(block: string) {
    BlockGuarded(Pieces(block))
  }

  predicate DestinationSafe(d: string) {
    SettledFor(d, Content) && SettledFor(d, SecretsPath) && SettledFor(d, Command)
  }

  predicate ContentSafe(c: string) {
    TemplateGuarded(Pieces(c))
  }

  predicate PathSafe(p: string) {
    SettledFor(p, Command)
  }

  predicate ValuesSafe(v: Values) {
    DestinationSafe(v.destination) && ContentSafe(v.content) && PathSafe(v.path)
  }

  lemma FillPieces(s: string)
    ensures Fill(Pieces(s), TAGS) == s && WellCut(Pieces(s))
  {
    FillCut("", s);
    CutWell("", s);
  }

  lemma {:induction false} GuardedNone(pieces: seq<Piece>, h: Hole)
    ensures Guarded(pieces, {}, h)
    decreases |pieces|
  {
    if pieces != [] {
      GuardedNone(pieces[1..], h);
    }
  }

  /** The pass of a placeholder over a block whose earlier holes are filled with settled values, the
      template aside, which is rewritten on its own. */
  lemma FilledPass(b: seq<Piece>, v: Values, v': Values, h: Hole, w: string)
    requires WellCut(b) && Guarded(b, Earlier(h), h)
    requires forall g :: g !in Earlier(h) ==> v.Get(g) == Tag(g)
    requires forall g :: g in Earlier(h) && g != Content ==> SettledFor(v.Get(g), h)
    requires Rewrites(v.content, h, w, v'.content)
    requires forall g :: g != Content ==> v'.Get(g) == if g == h then w else v.Get(g)
    ensures ReplaceAll(Fill(b, v), Tag(h), w) == Fill(b, v')
  {
    forall g
      ensures Rewrites(v.Get(g), h, w, v'.Get(g))
    {
      if g != Content {
        ValueRewrites(v.Get(g), h, w, g);
      }
    }
    PassWhole(b, v, v', Earlier(h), h, w);
  }

  lemma ValueRewrites(x: string, h: Hole, w: string, g: Hole)
    requires x == Tag(g) || (g != h && SettledFor(x, h))
    ensures Rewrites(x, h, w, if g == h then w else x)
  {
    if x == Tag(g) {
      if g == h {
        TagRewrites(h, w);
      } else {
        TagsApart(h, g);
        SettledRewrites(x, h, w);
      }
    } else {
      SettledRewrites(x, h, w);
    }
  }

  /** The placeholders still in place and the settled values already filled. */
  predicate PartlyFilled(v: Values, filled: set<Hole>, h: Hole) {
    forall g :: if g in filled then SettledFor(v.Get(g), h) else v.Get(g) == Tag(g)
  }

  lemma ValuesRewrite(v: Values, filled: set<Hole>, h: Hole, w: string)
    requires PartlyFilled(v, filled, h) && h !in filled
    ensures forall g :: Rewrites(v.Get(g), h, w, v.Put(h, w).Get(g))
  {
    forall g
      ensures Rewrites(v.Get(g), h, w, v.Put(h, w).Get(g))
    {
      ValueRewrites(v.Get(g), h, w, g);
    }
  }

  lemma TextRewrites(t: seq<Piece>, v: Values, filled: set<Hole>, h: Hole, w: string)
    requires WellCut(t) && Guarded(t, filled, h) && EndSettled(t, h) && h !in filled && PartlyFilled(v, filled, h)
    ensures Rewrites(Fill(t, v), h, w, Fill(t, v.Put(h, w)))
  {
    ValuesRewrite(v, filled, h, w);
    PassRewrites(t, v, v.Put(h, w), filled, h, w);
  }

  /** The path and command passes over the template's own text. */
  lemma TemplatePasses(t: seq<Piece>, p: string, w: string)
    requires WellCut(t) && TemplateGuarded(t) && PathSafe(p)
    ensures Rewrites(Fill(t, TAGS), SecretsPath, p, Fill(t, TAGS.(path := p)))
    ensures Rewrites(Fill(t, TAGS.(path := p)), Command, w, Fill(t, TAGS.(path := p, command := w)))
  {
    GuardedNone(t, SecretsPath);
    TextRewrites(t, TAGS, {}, SecretsPath, p);
    TextRewrites(t, TAGS.(path := p), {SecretsPath}, Command, w);
  }

  lemma FirstPasses(b: seq<Piece>, d: string, c: string)
    requires WellCut(b) && BlockGuarded(b) && SettledFor(d, Content)
    ensures ReplaceAll(ReplaceAll(Fill(b, TAGS), DESTINATION_TAG, d), CONTENT_TAG, c) ==
            Fill(b, TAGS.(destination := d, content := c))
  {
    ValueRewrites(CONTENT_TAG, Destination, d, Content);
    FilledPass(b, TAGS, TAGS.(destination := d), Destination, d);
    TagRewrites(Content, c);
    FilledPass(b, TAGS.(destination := d), TAGS.(destination := d, content := c), Content, c);
  }

  lemma AllPasses(b: seq<Piece>, t: seq<Piece>, v: Values)
    requires WellCut(b) && BlockGuarded(b) && WellCut(t) && TemplateGuarded(t) && v.content == Fill(t, TAGS)
    requires DestinationSafe(v.destination) && PathSafe(v.path)
    ensures Render(Fill(b, TAGS), v) == Fill(b, Simultaneous(t, v))
  {
    FirstPasses(b, v.destination, v.content);
    TemplatePasses(t, v.path, v.command);
    var v2 := v.(path := PATH_TAG, command := COMMAND_TAG);
    var v3 := v.(content := Fill(t, TAGS.(path := v.path)), command := COMMAND_TAG);
    FilledPass(b, v2, v3, SecretsPath, v.path);
    FilledPass(b, v3, Simultaneous(t, v), Command, v.command);
  }

  /** The four passes are one simultaneous substitution, with the path and the command filled inside the
      template, when block, destination, template and path are each safe. Nothing is asked of the
      command. */
  lemma PassesAreSimultaneous(block: string, v: Values)
    requires BlockSafe(block) && ValuesSafe(v)
    ensures Agree(block, v)
  {
    FillPieces(block);
    FillPieces(v.content);
    AllPasses(Pieces(block), Pieces(v.content), v);
  }

  /* ---------- No placeholder is left ---------- */

  /** No literal half-opens any placeholder, wherever it stands. */
  predicate Sound(pieces: seq<Piece>) {
    forall i :: 0 <= i < |pieces| && pieces[i].Literal? ==> Settled(pieces[i].text)
  }

  lemma {:induction false} SoundGuarded(pieces: seq<Piece>, filled: set<Hole>, h: Hole)
    requires Sound(pieces)
    ensures Guarded(pieces, filled, h) && EndSettled(pieces, h)
    decreases |pieces|
  {
    if pieces != [] {
      SoundGuarded(pieces[1..], filled, h);
    }
  }

  lemma SoundSafePieces(pieces: seq<Piece>)
    requires Sound(pieces)
    ensures BlockGuarded(pieces) && TemplateGuarded(pieces)
  {
    forall h {
      SoundGuarded(pieces, Earlier(h), h);
    }
    SoundGuarded(pieces, {SecretsPath}, SecretsPath);
    SoundGuarded(pieces, {SecretsPath}, Command);
  }

  lemma {:induction false} FillSettled(pieces: seq<Piece>, v: Values)
    requires Sound(pieces)
    requires forall i :: 0 <= i < |pieces| && pieces[i].Gap? ==> Settled(v.Get(pieces[i].hole))
    ensures Settled(Fill(pieces, v))
    decreases |pieces|
  {
    if pieces != [] {
      FillSettled(pieces[1..], v);
      var head := match pieces[0] case Literal(t) => t case Gap(h) => v.Get(h);
      SettledAppend(head, Fill(pieces[1..], v));
    }
  }

  /** A template with only path and command placeholders, like the default one. */
  predicate FillsItself(template: seq<Piece>) {
    forall i :: 0 <= i < |template| && template[i].Gap? ==> template[i].hole in {SecretsPath, Command}
  }

  /** No placeholder remains in the output. */
  lemma NoPlaceholderLeft(block: string, v: Values)
    requires Sound(Pieces(block)) && Sound(Pieces(v.content)) && FillsItself(Pieces(v.content))
    requires Settled(v.destination) && Settled(v.path) && Settled(v.command)
    ensures Settled(Render(block, v))
  {
    SoundSafePieces(Pieces(block));
    SoundSafePieces(Pieces(v.content));
    PassesAreSimultaneous(block, v);
    FillSettled(Pieces(v.content), TAGS.(path := v.path, command := v.command));
    var w := Simultaneous(Pieces(v.content), v);
    forall h
      ensures Settled(w.Get(h))
    {
      match h case Destination => case Content => case SecretsPath => case Command =>
    }
    FillSettled(Pieces(block), w);
  }
}
