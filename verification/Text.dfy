/** The string operations of Go's `strings`, `strconv`, `path` and `unicode/utf8` packages that the
    injector relies on, with the laws the other modules need. */
module Text {

  datatype Option<+T> = None | Some(value: T) {
    predicate IsFailure() {
      None?
    }

    function PropagateFailure<U>(): Option<U>
      requires None?
    {
      None
    }

    function Extract(): T
      requires Some?
    {
      value
    }

    function GetOr(default: T): T {
      if Some? then value else default
    }
  }

  /* ---------- strconv.Itoa on indices ---------- */

  predicate IsDigit(c: char) {
    '0' <= c <= '9'
  }

  predicate AllDigits(s: string) {
    forall i :: 0 <= i < |s| ==> IsDigit(s[i])
  }

  function Itoa(n: nat): string {
    var last := [('0' as int + n % 10) as char];
    if n < 10 then last else Itoa(n / 10) + last
  }

  function Atoi(s: string): nat
    requires AllDigits(s)
  {
    if s == "" then 0
    else
      assert IsDigit(s[|s| - 1]);
      10 * Atoi(s[..|s| - 1]) + (s[|s| - 1] as int - '0' as int)
  }

  /** The grammar of an array index in section 4 of RFC 6901: no sign, no leading zero. */
  predicate IsIndex(s: string) {
    s != "" && AllDigits(s) && (|s| > 1 ==> s[0] != '0')
  }

  lemma {:induction false} ItoaIsIndex(n: nat)
    ensures IsIndex(Itoa(n)) && Atoi(Itoa(n)) == n
    ensures n > 0 ==> Itoa(n)[0] != '0'
  {
    var last := [('0' as int + n % 10) as char];
    if n < 10 {
      assert Itoa(n) == last && last[..0] == "";
    } else {
      ItoaIsIndex(n / 10);
      assert Itoa(n)[..|Itoa(n)| - 1] == Itoa(n / 10);
    }
  }

  /* ---------- strings.Index, strings.Split, strings.Join ---------- */

  predicate OccursAt(s: string, sep: string, i: int) {
    0 <= i && i + |sep| <= |s| && s[i..i + |sep|] == sep
  }

  function Index(s: string, sep: string): (r: int)
    requires sep != ""
    ensures -1 <= r && (r >= 0 ==> r + |sep| <= |s|)
  {
    if |s| < |sep| then -1
    else if sep <= s then 0
    else
      var r := Index(s[1..], sep);
      if r < 0 then -1 else r + 1
  }

  /** Index is the first position of sep in s, or -1 when there is none. */
  lemma {:induction false} IndexFirst(s: string, sep: string)
    requires sep != ""
    ensures Index(s, sep) >= 0 ==> OccursAt(s, sep, Index(s, sep))
    ensures forall j :: OccursAt(s, sep, j) ==> 0 <= Index(s, sep) <= j
  {
    if |s| >= |sep| {
      assert s[0..|sep|] == s[..|sep|];
      if !(sep <= s) {
        IndexFirst(s[1..], sep);
        forall j | j > 0
          ensures OccursAt(s, sep, j) <==> OccursAt(s[1..], sep, j - 1)
        {
          if j + |sep| <= |s| {
            assert s[1..][j - 1..j - 1 + |sep|] == s[j..j + |sep|];
          }
        }
      }
    }
  }

  /** Being the first position of sep determines the result. */
  lemma IndexIs(s: string, sep: string, i: nat)
    requires sep != ""
    requires OccursAt(s, sep, i) && forall j :: 0 <= j < i ==> !OccursAt(s, sep, j)
    ensures Index(s, sep) == i
  {
    IndexFirst(s, sep);
  }

  lemma IndexNone(s: string, sep: string)
    requires sep != ""
    requires forall j :: !OccursAt(s, sep, j)
    ensures Index(s, sep) == -1
  {
    IndexFirst(s, sep);
  }

  function Split(s: string, sep: string): (r: seq<string>)
    requires sep != ""
    ensures r != []
  {
    var i := Index(s, sep);
    if i < 0 then [s] else [s[..i]] + Split(s[i + |sep|..], sep)
  }

  function Join(parts: seq<string>, sep: string): string
    requires parts != []
  {
    if |parts| == 1 then parts[0] else parts[0] + sep + Join(parts[1..], sep)
  }

  lemma {:induction false} JoinSplit(s: string, sep: string)
    requires sep != ""
    ensures Join(Split(s, sep), sep) == s
    decreases |s|
  {
    var i := Index(s, sep);
    if i >= 0 {
      var rest := s[i + |sep|..];
      JoinSplit(rest, sep);
      IndexFirst(s, sep);
      assert Split(s, sep)[1..] == Split(rest, sep);
      assert s == s[..i] + s[i..i + |sep|] + rest;
    }
  }

  /** Only the empty text splits into a single empty entry. */
  lemma EmptyEntry(s: string, sep: string)
    requires sep != ""
    ensures Split(s, sep) == [""] <==> s == ""
  {
    JoinSplit(s, sep);
  }

  /** No entry starts a separator early: every entry but the last meets its separator exactly at its
      own end, and the last entry has none. */
  predicate CleanEntries(parts: seq<string>, sep: string)
    requires sep != ""
  {
    && (forall k :: 0 <= k < |parts| - 1 ==> Index(parts[k] + sep, sep) == |parts[k]|)
    && (parts != [] ==> Index(parts[|parts| - 1], sep) < 0)
  }

  lemma IndexOfHead(e: string, sep: string, rest: string)
    requires sep != ""
    ensures Index(e + sep + rest, sep) == Index(e + sep, sep)
  {
    var whole, head := e + sep + rest, e + sep;
    IndexFirst(head, sep);
    forall j | 0 <= j <= |e|
      ensures OccursAt(whole, sep, j) <==> OccursAt(head, sep, j)
    {
      assert whole[j..j + |sep|] == head[j..j + |sep|];
    }
    assert OccursAt(head, sep, |e|) && OccursAt(whole, sep, |e|);
    IndexIs(whole, sep, Index(head, sep));
  }

  /** Splitting undoes joining exactly on the lists whose entries start no separator early. */
  lemma {:induction false} SplitJoin(parts: seq<string>, sep: string)
    requires sep != "" && parts != []
    ensures Split(Join(parts, sep), sep) == parts <==> CleanEntries(parts, sep)
    decreases |parts|
  {
    if |parts| == 1 {
      SplitJoinOne(parts[0], sep);
      assert parts == [parts[0]];
    } else {
      SplitJoin(parts[1..], sep);
      SplitCons(parts[0], sep, Join(parts[1..], sep));
      CleanEntriesCons(parts, sep);
      assert parts == [parts[0]] + parts[1..];
    }
  }

  lemma SplitJoinOne(e: string, sep: string)
    requires sep != ""
    ensures Split(e, sep) == [e] <==> Index(e, sep) < 0
  {
    var i := Index(e, sep);
    if i >= 0 {
      assert |Split(e, sep)| == 1 + |Split(e[i + |sep|..], sep)|;
    }
  }

  lemma CleanEntriesCons(parts: seq<string>, sep: string)
    requires sep != "" && |parts| > 1
    ensures CleanEntries(parts, sep) <==> Index(parts[0] + sep, sep) == |parts[0]| && CleanEntries(parts[1..], sep)
  {
    var tail := parts[1..];
    if Index(parts[0] + sep, sep) == |parts[0]| && CleanEntries(tail, sep) {
      forall k | 0 <= k < |parts| - 1
        ensures Index(parts[k] + sep, sep) == |parts[k]|
      {
        if k > 0 { assert tail[k - 1] == parts[k]; }
      }
    }
  }

  lemma SplitCons(e: string, sep: string, rest: string)
    requires sep != ""
    ensures Index(e + sep, sep) == |e| ==> Split(e + sep + rest, sep) == [e] + Split(rest, sep)
    ensures Index(e + sep, sep) != |e| ==> Split(e + sep + rest, sep)[0] != e
  {
    var s, i := e + sep + rest, Index(e + sep, sep);
    IndexFirst(e + sep, sep);
    assert OccursAt(e + sep, sep, |e|);
    IndexOfHead(e, sep, rest);
    assert Split(s, sep) == [s[..i]] + Split(s[i + |sep|..], sep);
    if i == |e| {
      assert s[i + |sep|..] == rest && s[..i] == e;
    }
  }

  /** With a one-character separator no occurrence straddles a boundary, so splitting distributes. */
  lemma {:induction false} SplitAppend(s: string, c: char, t: string)
    ensures Split(s + [c] + t, [c]) == Split(s, [c]) + Split(t, [c])
    decreases |s|
  {
    var sep := [c];
    var i := Index(s, sep);
    SplitAppendStep(s, c, t);
    if i >= 0 {
      SplitAppend(s[i + 1..], c, t);
      assert [s[..i]] + (Split(s[i + 1..], sep) + Split(t, sep)) == Split(s, sep) + Split(t, sep);
    }
  }

  lemma SplitAppendStep(s: string, c: char, t: string)
    ensures var i := Index(s, [c]);
            Split(s + [c] + t, [c]) ==
            if i < 0 then [s] + Split(t, [c]) else [s[..i]] + Split(s[i + 1..] + [c] + t, [c])
  {
    var whole, i := s + [c] + t, Index(s, [c]);
    IndexOfSnoc(s, c, t);
    SplitAt(whole, c);
    if i < 0 {
      assert whole[|s| + 1..] == t && whole[..|s|] == s;
    } else {
      assert whole[i + 1..] == s[i + 1..] + [c] + t && whole[..i] == s[..i];
    }
  }

  lemma SplitAt(s: string, c: char)
    requires Index(s, [c]) >= 0
    ensures Split(s, [c]) == [s[..Index(s, [c])]] + Split(s[Index(s, [c]) + 1..], [c])
  {
  }

  lemma IndexOfSnoc(s: string, c: char, t: string)
    ensures Index(s + [c] + t, [c]) == if Index(s, [c]) < 0 then |s| else Index(s, [c])
  {
    var sep, whole := [c], s + [c] + t;
    IndexFirst(s, sep);
    forall j | 0 <= j < |s|
      ensures OccursAt(whole, sep, j) <==> OccursAt(s, sep, j)
    {
      assert whole[j..j + 1] == s[j..j + 1];
    }
    assert OccursAt(whole, sep, |s|);
    IndexIs(whole, sep, if Index(s, sep) < 0 then |s| else Index(s, sep));
  }

  /** No entry of a split holds the separator. */
  lemma {:induction false} SplitEntries(s: string, c: char)
    ensures forall k :: 0 <= k < |Split(s, [c])| ==> c !in Split(s, [c])[k]
    decreases |s|
  {
    var i := Index(s, [c]);
    IndexFirst(s, [c]);
    var head := if i < 0 then s else s[..i];
    forall j | 0 <= j < |head|
      ensures head[j] != c
    {
      assert s[j..j + 1] == [s[j]];
      assert !OccursAt(s, [c], j);
    }
    if i >= 0 {
      SplitEntries(s[i + 1..], c);
    }
  }

  lemma SplitNone(t: string, c: char)
    requires c !in t
    ensures Split(t, [c]) == [t]
  {
    forall j
      ensures !OccursAt(t, [c], j)
    {
      if 0 <= j < |t| {
        assert t[j..j + 1][0] == t[j];
      }
    }
    IndexNone(t, [c]);
  }

  function Concat(parts: seq<string>): string {
    if parts == [] then "" else parts[0] + Concat(parts[1..])
  }

  /* ---------- strings.Replace with n < 0 ---------- */

  function ReplaceAll(s: string, from: string, to: string): string
    requires from != ""
    decreases |s|
  {
    if s == "" then ""
    else if from <= s then to + ReplaceAll(s[|from|..], from, to)
    else [s[0]] + ReplaceAll(s[1..], from, to)
  }

  /** The text before the first occurrence is kept, what follows it is replaced in turn. */
  lemma {:induction false} ReplaceFirst(s: string, from: string, to: string, i: nat)
    requires from != "" && OccursAt(s, from, i) && forall j :: 0 <= j < i ==> !OccursAt(s, from, j)
    ensures ReplaceAll(s, from, to) == s[..i] + to + ReplaceAll(s[i + |from|..], from, to)
    decreases i
  {
    AtStart(s, from);
    if i == 0 {
      ReplaceStart(s, from, to);
      assert s[..0] + to == to;
    } else {
      FirstLater(s, from, i);
      ReplaceFirst(s[1..], from, to, i - 1);
      ReplaceLater(s, from, to, i, s[i + |from|..]);
    }
  }

  lemma ReplaceLater(s: string, from: string, to: string, i: nat, rest: string)
    requires 0 < i <= |s| && from != "" && !(from <= s)
    requires ReplaceAll(s[1..], from, to) == s[1..][..i - 1] + to + ReplaceAll(rest, from, to)
    ensures ReplaceAll(s, from, to) == s[..i] + to + ReplaceAll(rest, from, to)
  {
    ReplaceOne(s, from, to);
    FirstShift(s, i, to, ReplaceAll(rest, from, to));
  }

  lemma FirstLater(s: string, from: string, i: nat)
    requires i > 0 && OccursAt(s, from, i) && forall j :: 0 <= j < i ==> !OccursAt(s, from, j)
    ensures OccursAt(s[1..], from, i - 1) && forall j :: 0 <= j < i - 1 ==> !OccursAt(s[1..], from, j)
    ensures s[1..][i - 1 + |from|..] == s[i + |from|..]
  {
    forall j | 0 <= j < i { LaterOccurs(s, from, j); }
  }

  lemma ReplaceStart(s: string, from: string, to: string)
    requires from != "" && from <= s
    ensures ReplaceAll(s, from, to) == to + ReplaceAll(s[|from|..], from, to)
  {
  }

  lemma FirstShift(s: string, i: nat, to: string, rest: string)
    requires 0 < i <= |s|
    ensures [s[0]] + (s[1..][..i - 1] + to + rest) == s[..i] + to + rest
  {
    assert [s[0]] + s[1..][..i - 1] == s[..i];
  }

  lemma AtStart(s: string, from: string)
    ensures OccursAt(s, from, 0) <==> from <= s
  {
    if |from| <= |s| {
      assert s[0..|from|] == s[..|from|];
    }
  }

  lemma LaterOccurs(s: string, from: string, j: nat)
    requires s != ""
    ensures OccursAt(s[1..], from, j) <==> OccursAt(s, from, j + 1)
  {
    if j + 1 + |from| <= |s| {
      assert s[1..][j..j + |from|] == s[j + 1..j + 1 + |from|];
    }
  }

  lemma ReplaceOne(s: string, from: string, to: string)
    requires from != "" && s != "" && !(from <= s)
    ensures ReplaceAll(s, from, to) == [s[0]] + ReplaceAll(s[1..], from, to)
  {
  }

  lemma {:induction false} ReplaceNone(s: string, from: string, to: string)
    requires from != "" && forall j :: !OccursAt(s, from, j)
    ensures ReplaceAll(s, from, to) == s
    decreases |s|
  {
    if s != "" {
      AtStart(s, from);
      forall j
        ensures !OccursAt(s[1..], from, j)
      {
        if j >= 0 { LaterOccurs(s, from, j); }
      }
      ReplaceNone(s[1..], from, to);
      ReplaceOne(s, from, to);
      assert [s[0]] + s[1..] == s;
    }
  }

  /** Replacing every occurrence is splitting at the text and joining with the other. */
  lemma {:induction false} ReplaceIsJoin(s: string, from: string, to: string)
    requires from != ""
    ensures ReplaceAll(s, from, to) == Join(Split(s, from), to)
    decreases |s|
  {
    var i := Index(s, from);
    IndexFirst(s, from);
    if i < 0 {
      ReplaceNone(s, from, to);
    } else {
      var rest := s[i + |from|..];
      ReplaceFirst(s, from, to, i);
      ReplaceIsJoin(rest, from, to);
      assert Split(s, from)[1..] == Split(rest, from);
    }
  }

  /* ---------- strings.ToLower, strings.TrimSuffix, strings.TrimSpace ---------- */

  /** ASCII letters and the two other code points whose lower case is an ASCII letter. The program
      compares lower-cased text with ASCII words only, so no other code point matters. */
  function LowerChar(c: char): char {
    if 'A' <= c <= 'Z' then (c as int + 32) as char
    else if c == '\U{212A}' then 'k'
    else if c == '\U{0130}' then 'i'
    else c
  }

  function ToLower(s: string): string {
    seq(|s|, i requires 0 <= i < |s| => LowerChar(s[i]))
  }

  /** Lower-casing goes letter by letter, takes each capital to its small letter and is done at once. */
  lemma LowerLaws(a: string, b: string, k: nat)
    requires k < 26
    ensures ToLower(a + b) == ToLower(a) + ToLower(b)
    ensures ToLower(["ABCDEFGHIJKLMNOPQRSTUVWXYZ"[k]]) == ["abcdefghijklmnopqrstuvwxyz"[k]]
    ensures ToLower(ToLower(a)) == ToLower(a)
  {
    assert "ABCDEFGHIJKLMNOPQRSTUVWXYZ"[k] as int == 'A' as int + k;
    assert "abcdefghijklmnopqrstuvwxyz"[k] as int == 'a' as int + k;
  }

  function TrimSuffix(s: string, suffix: string): string {
    if |suffix| <= |s| && s[|s| - |suffix|..] == suffix then s[..|s| - |suffix|] else s
  }

  /** A suffix is trimmed once, and a text without it is kept. */
  lemma TrimSuffixIs(s: string, suffix: string)
    ensures TrimSuffix(s + suffix, suffix) == s
    ensures TrimSuffix(s, suffix) == s <==> suffix == "" || !(exists p :: s == p + suffix)
  {
    assert (s + suffix)[|s|..] == suffix && (s + suffix)[..|s|] == s;
    if p :| s == p + suffix {
      assert s[|p|..] == suffix && s[..|p|] == p;
    }
    if |suffix| <= |s| && s[|s| - |suffix|..] == suffix {
      assert s == s[..|s| - |suffix|] + suffix;
    }
  }

  predicate IsSpace(c: char) {
    || '\t' <= c <= '\r'
    || c == ' '
    || c == '\U{0085}'
    || c == '\U{00A0}'
    || c == '\U{1680}'
    || '\U{2000}' <= c <= '\U{200A}'
    || c == '\U{2028}'
    || c == '\U{2029}'
    || c == '\U{202F}'
    || c == '\U{205F}'
    || c == '\U{3000}'
  }

  function TrimLeft(s: string): string {
    if s != "" && IsSpace(s[0]) then TrimLeft(s[1..]) else s
  }

  function TrimRight(s: string): string {
    if s != "" && IsSpace(s[|s| - 1]) then TrimRight(s[..|s| - 1]) else s
  }

  function TrimSpace(s: string): string {
    TrimRight(TrimLeft(s))
  }

  predicate Trimmed(s: string) {
    s != "" ==> !IsSpace(s[0]) && !IsSpace(s[|s| - 1])
  }

  lemma {:induction false} TrimLeftCut(s: string) returns (i: nat)
    ensures i <= |s| && TrimLeft(s) == s[i..]
    ensures i < |s| ==> !IsSpace(s[i])
  {
    if s != "" && IsSpace(s[0]) {
      i := TrimLeftCut(s[1..]);
      assert s[1..][i..] == s[i + 1..];
      i := i + 1;
    } else {
      i := 0;
    }
  }

  lemma {:induction false} TrimRightCut(s: string) returns (j: nat)
    ensures j <= |s| && TrimRight(s) == s[..j]
    ensures j > 0 ==> !IsSpace(s[j - 1])
  {
    if s != "" && IsSpace(s[|s| - 1]) {
      j := TrimRightCut(s[..|s| - 1]);
      assert s[..|s| - 1][..j] == s[..j];
    } else {
      j := |s|;
    }
  }

  /** Trimming cuts a slice without white space at its ends. */
  lemma TrimCut(s: string) returns (i: nat, j: nat)
    ensures i <= j <= |s| && TrimSpace(s) == s[i..j] && Trimmed(TrimSpace(s))
  {
    i := TrimLeftCut(s);
    var k := TrimRightCut(s[i..]);
    j := i + k;
    assert s[i..][..k] == s[i..j];
    if k > 0 {
      assert s[i..j][0] == s[i] && s[i..j][|s[i..j]| - 1] == s[i..][k - 1];
    }
  }

  /** Text is a fixed point of trimming exactly when it is trimmed. */
  lemma TrimFixed(s: string)
    ensures TrimSpace(s) == s <==> Trimmed(s)
  {
    var i, j := TrimCut(s);
    if Trimmed(s) && s != "" {
      assert TrimLeft(s) == s && TrimRight(s) == s;
    }
  }

  /* ---------- unicode/utf8 ---------- */

  predicate AllSpace(s: string) {
    forall i :: 0 <= i < |s| ==> IsSpace(s[i])
  }

  lemma {:induction false} LeadTrimmed(lead: string, rest: string)
    requires AllSpace(lead) && (rest != "" ==> !IsSpace(rest[0]))
    ensures TrimLeft(lead + rest) == rest
  {
    if lead == "" {
      assert lead + rest == rest;
    } else {
      LeadTrimmed(lead[1..], rest);
      assert (lead + rest)[1..] == lead[1..] + rest;
    }
  }

  lemma {:induction false} TailTrimmed(rest: string, tail: string)
    requires AllSpace(tail) && (rest != "" ==> !IsSpace(rest[|rest| - 1]))
    ensures TrimRight(rest + tail) == rest
  {
    if tail == "" {
      assert rest + tail == rest;
    } else {
      var n := |tail| - 1;
      TailTrimmed(rest, tail[..n]);
      assert (rest + tail)[..|rest + tail| - 1] == rest + tail[..n];
    }
  }

  /** Trimming takes away the space at both ends, and nothing else. */
  lemma TrimSpaceIs(lead: string, core: string, tail: string)
    requires AllSpace(lead) && AllSpace(tail) && Trimmed(core)
    ensures TrimSpace(lead + core + tail) == core
  {
    if core == "" {
      LeadTrimmed(lead + tail, "");
      assert lead + core + tail == lead + tail + "";
    } else {
      LeadTrimmed(lead, core + tail);
      assert lead + core + tail == lead + (core + tail);
      TailTrimmed(core, tail);
    }
  }

  function Utf8Len(s: string): nat {
    if s == "" then 0
    else
      (if s[0] < '\U{0080}' then 1 else if s[0] < '\U{0800}' then 2 else if s[0] < '\U{10000}' then 3 else 4)
      + Utf8Len(s[1..])
  }

  lemma {:induction false} Utf8LenAppend(a: string, b: string)
    ensures Utf8Len(a + b) == Utf8Len(a) + Utf8Len(b)
  {
    if a == "" {
      assert a + b == b;
    } else {
      Utf8LenAppend(a[1..], b);
      assert (a + b)[1..] == a[1..] + b;
    }
  }

  /** ASCII text takes a byte for each character. */
  lemma {:induction false} Utf8LenAscii(s: string)
    requires forall i :: 0 <= i < |s| ==> s[i] < '\U{0080}'
    ensures Utf8Len(s) == |s|
  {
    if s != "" {
      Utf8LenAscii(s[1..]);
    }
  }

  lemma Utf8LenSlice(s: string, i: nat, j: nat)
    requires i <= j <= |s|
    ensures Utf8Len(s[i..j]) <= Utf8Len(s)
  {
    assert s == s[..i] + s[i..j] + s[j..];
    Utf8LenPart(s[..i], s[i..j], s[j..]);
  }

  lemma Utf8LenPart(a: string, b: string, c: string)
    ensures Utf8Len(b) <= Utf8Len(a + b + c)
  {
    Utf8LenAppend(a, b);
    Utf8LenAppend(a + b, c);
  }
}
