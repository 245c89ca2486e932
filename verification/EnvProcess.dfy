/** The vaultinjector-env helper: unwrapping its arguments and reading the secrets files. */
module EnvProcess {
  import opened Text

  /** The command line the helper replaces itself with; None when it was given none. */
  function Entrypoint(args: seq<string>): Option<seq<string>>
    requires args != []
  {
    if |args| == 1 then None else Some(args[1..])
  }

  /* ---------- parsePropertiesFile ---------- */

  /** bufio.MaxScanTokenSize: a line this long, counted in bytes, stops the scan with an error. */
  const MAX_SCAN_TOKEN_SIZE := 65536

  function DropCR(line: string): string {
    if line != "" && line[|line| - 1] == '\r' then line[..|line| - 1] else line
  }

  /** The lines of the contents with their line breaks removed; nothing follows a final line break. */
  function RawLines(contents: string): seq<string> {
    var parts := Split(contents, "\n");
    if parts[|parts| - 1] == "" then parts[..|parts| - 1] else parts
  }

  predicate ShortLines(lines: seq<string>) {
    forall i :: 0 <= i < |lines| ==> Utf8Len(lines[i]) < MAX_SCAN_TOKEN_SIZE
  }

  /** The property on a line, if any. */
  function ParseLine(line: string): seq<string> {
    var equal := Index(line, "=");
    if equal < 0 || TrimSpace(line[..equal]) == "" then []
    else [TrimSpace(line[..equal]) + "=" + TrimSpace(line[equal + 1..])]
  }

  function ParseLines(lines: seq<string>): seq<string> {
    if lines == [] then []
    else ParseLines(lines[..|lines| - 1]) + ParseLine(DropCR(lines[|lines| - 1]))
  }

  function ParseProperties(contents: string): Option<seq<string>> {
    if ShortLines(RawLines(contents)) then Some(ParseLines(RawLines(contents))) else None
  }

  /** One scanned line: the property it holds is appended to those found so far. */
  method AppendProperty(props: seq<string>, line: string) returns (r: seq<string>)
    ensures r == props + ParseLine(line)
  {
    r := props;
    var equal := Index(line, "=");
    if equal >= 0 {
      var key := TrimSpace(line[..equal]);
      if |key| > 0 {
        var value := "";
        if |line| > equal {
          value := TrimSpace(line[equal + 1..]);
        }
        r := r + [key + "=" + value];
      }
    }
  }

  lemma ParseLinesNext(lines: seq<string>, i: nat)
    requires i < |lines|
    ensures ParseLines(lines[..i + 1]) == ParseLines(lines[..i]) + ParseLine(DropCR(lines[i]))
  {
    var taken := lines[..i + 1];
    assert taken[..|taken| - 1] == lines[..i] && taken[|taken| - 1] == lines[i];
  }

  lemma ShortLinesNext(lines: seq<string>, i: nat)
    requires i < |lines|
    ensures ShortLines(lines[..i + 1]) <==> ShortLines(lines[..i]) && Utf8Len(lines[i]) < MAX_SCAN_TOKEN_SIZE
  {
    var taken := lines[..i + 1];
    assert forall k :: 0 <= k < i ==> lines[..i][k] == taken[k];
    assert taken[i] == lines[i];
  }

  method ParsePropertiesFile(contents: string) returns (r: Option<seq<string>>)
    ensures r == ParseProperties(contents)
    ensures r.None? <==> exists line :: line in RawLines(contents) && Utf8Len(line) >= 65536
  {
    var props: seq<string> := [];
    var lines := RawLines(contents);
    for i := 0 to |lines|
      invariant props == ParseLines(lines[..i])
      invariant ShortLines(lines[..i])
    {
      if Utf8Len(lines[i]) >= MAX_SCAN_TOKEN_SIZE {
        assert lines[i] in lines && !ShortLines(lines);
        return None;
      }
      props := AppendProperty(props, DropCR(lines[i]));
      ParseLinesNext(lines, i);
      ShortLinesNext(lines, i);
    }
    assert lines[..|lines|] == lines;
    r := Some(props);
  }

  /* ---------- What the default template prints ---------- */

  datatype Pair = Pair(key: string, value: string)

  function PairText(p: Pair): string {
    p.key + "=" + p.value
  }

  function Texts(pairs: seq<Pair>): seq<string> {
    seq(|pairs|, i requires 0 <= i < |pairs| => PairText(pairs[i]))
  }

  /** Every pair on a line of its own between line breaks, as the default template's range does. */
  function PrintPairs(pairs: seq<Pair>): string {
    if pairs == [] then ""
    else PrintPairs(pairs[..|pairs| - 1]) + "\n" + PairText(pairs[|pairs| - 1]) + "\n"
  }

  /** The secrets file: what stands before the placeholder in the template block, the printed pairs and
      the line break after the placeholder. */
  function SecretsFile(lead: string, pairs: seq<Pair>): string {
    lead + PrintPairs(pairs) + "\n"
  }

  /** Keys and values that survive a properties file. */
  predicate Proper(p: Pair) {
    && p.key != "" && TrimSpace(p.key) == p.key && '=' !in p.key && '\n' !in p.key
    && TrimSpace(p.value) == p.value && '\n' !in p.value
    && Utf8Len(PairText(p)) < MAX_SCAN_TOKEN_SIZE
  }

  predicate AllProper(pairs: seq<Pair>) {
    forall i :: 0 <= i < |pairs| ==> Proper(pairs[i])
  }

  predicate Silent(lead: string) {
    '=' !in lead && '\n' !in lead && Utf8Len(lead) < MAX_SCAN_TOKEN_SIZE
  }

  function FileLines(lead: string, pairs: seq<Pair>): seq<string> {
    if pairs == [] then [lead]
    else FileLines(lead, pairs[..|pairs| - 1]) + [PairText(pairs[|pairs| - 1]), ""]
  }

  function Unlines(lines: seq<string>): string {
    if lines == [] then "" else lines[0] + "\n" + Unlines(lines[1..])
  }

  predicate NoBreaks(lines: seq<string>) {
    forall i :: 0 <= i < |lines| ==> '\n' !in lines[i]
  }

  lemma {:induction false} SplitUnlines(lines: seq<string>, last: string)
    requires NoBreaks(lines) && '\n' !in last
    ensures Split(Unlines(lines) + last, "\n") == lines + [last]
  {
    if lines == [] {
      SplitNone(last, '\n');
      assert "" + last == last;
    } else {
      SplitUnlines(lines[1..], last);
      SplitFirstLine(lines[0], Unlines(lines[1..]), last);
      assert [lines[0]] + (lines[1..] + [last]) == lines + [last];
    }
  }

  lemma SplitFirstLine(line: string, rest: string, last: string)
    requires '\n' !in line
    ensures Split(line + "\n" + rest + last, "\n") == [line] + Split(rest + last, "\n")
  {
    SplitNone(line, '\n');
    SplitAppend(line, '\n', rest + last);
    assert line + "\n" + rest + last == line + "\n" + (rest + last);
  }

  lemma {:induction false} UnlinesAppend(a: seq<string>, b: seq<string>)
    ensures Unlines(a + b) == Unlines(a) + Unlines(b)
  {
    if a == [] {
      assert a + b == b;
    } else {
      UnlinesAppend(a[1..], b);
      assert (a + b)[1..] == a[1..] + b;
    }
  }

  lemma RawLinesUnlines(lines: seq<string>)
    requires NoBreaks(lines)
    ensures RawLines(Unlines(lines)) == lines
  {
    SplitUnlines(lines, "");
    assert Unlines(lines) + "" == Unlines(lines);
  }

  /** The scanner's lines: the terminated ones, and what follows the last line break unless it is empty. */
  lemma ScannedLines(lines: seq<string>, last: string)
    requires NoBreaks(lines) && '\n' !in last
    ensures RawLines(Unlines(lines) + last) == if last == "" then lines else lines + [last]
  {
    SplitUnlines(lines, last);
  }

  /** On a line, the first equals sign separates key and value, both trimmed; a line without one, or with a
      blank key, holds no property. */
  lemma LineMeaning(key: string, value: string)
    requires '=' !in key
    ensures ParseLine(key + "=" + value) ==
            if TrimSpace(key) == "" then [] else [TrimSpace(key) + "=" + TrimSpace(value)]
    ensures ParseLine(key) == []
  {
    FirstEqual(key, value);
    NoIndex(key, '=');
    assert (key + "=" + value)[..|key|] == key && (key + "=" + value)[|key| + 1..] == value;
  }

  /** The line holds the text, with or without one carriage return at its end. */
  predicate EndsLine(line: string, text: string) {
    line == text + "\r" || (line == text && (text == "" || text[|text| - 1] != '\r'))
  }

  /** One more line adds what its text holds. */
  lemma OneMoreLine(lines: seq<string>, line: string, text: string)
    requires NoBreaks(lines + [line]) && ShortLines(lines + [line]) && EndsLine(line, text)
    ensures ParseProperties(Unlines([])) == Some([])
    ensures ParseProperties(Unlines(lines)).Some?
    ensures ParseProperties(Unlines(lines + [line])) ==
            Some(ParseProperties(Unlines(lines)).value + ParseLine(text))
  {
    assert DropCR(line) == text;
    assert (lines + [line])[..|lines|] == lines;
    assert NoBreaks(lines) && ShortLines(lines) by {
      forall i | 0 <= i < |lines|
        ensures '\n' !in lines[i] && Utf8Len(lines[i]) < MAX_SCAN_TOKEN_SIZE
      {
        assert (lines + [line])[i] == lines[i];
      }
    }
    RawLinesUnlines([]);
    RawLinesUnlines(lines);
    RawLinesUnlines(lines + [line]);
    ParseLinesSnoc(lines, line);
  }

  lemma {:induction false} FileIsLines(lead: string, pairs: seq<Pair>)
    ensures SecretsFile(lead, pairs) == Unlines(FileLines(lead, pairs))
  {
    if pairs == [] {
      assert [lead][1..] == [] && Unlines([lead]) == lead + "\n" + Unlines([]);
    } else {
      var n := |pairs| - 1;
      FileIsLines(lead, pairs[..n]);
      UnlinesTwo(FileLines(lead, pairs[..n]), PairText(pairs[n]), "");
      var head, text := PrintPairs(pairs[..n]), PairText(pairs[n]);
      assert lead + (head + "\n" + text + "\n") + "\n" == (lead + head + "\n") + text + "\n" + "" + "\n";
    }
  }

  lemma UnlinesTwo(lines: seq<string>, a: string, b: string)
    ensures Unlines(lines + [a, b]) == Unlines(lines) + a + "\n" + b + "\n"
  {
    UnlinesAppend(lines, [a, b]);
    assert [a, b][1..] == [b] && [b][1..] == [];
    assert Unlines([b]) == b + "\n" + "" == b + "\n";
    assert Unlines([a, b]) == a + "\n" + (b + "\n");
    assert Unlines(lines) + (a + "\n" + (b + "\n")) == Unlines(lines) + a + "\n" + b + "\n";
  }

  lemma ProperLine(p: Pair)
    requires Proper(p)
    ensures ParseLine(DropCR(PairText(p))) == [PairText(p)]
    ensures '\n' !in PairText(p)
  {
    var line := PairText(p);
    TrimFixed(p.value);
    assert line[|line| - 1] == if p.value == "" then '=' else p.value[|p.value| - 1];
    assert DropCR(line) == line;
    FirstEqual(p.key, p.value);
    assert line[..|p.key|] == p.key && line[|p.key| + 1..] == p.value;
  }

  lemma FirstEqual(key: string, value: string)
    requires '=' !in key
    ensures Index(key + "=" + value, "=") == |key|
  {
    IndexOfSnoc(key, '=', value);
    NoIndex(key, '=');
  }

  lemma NoIndex(s: string, c: char)
    requires c !in s
    ensures Index(s, [c]) == -1
  {
    forall j
      ensures !OccursAt(s, [c], j)
    {
      if 0 <= j < |s| {
        assert s[j..j + 1][0] == s[j];
      }
    }
    IndexNone(s, [c]);
  }

  lemma SilentLine(line: string)
    requires '=' !in line
    ensures ParseLine(DropCR(line)) == []
  {
    assert '=' !in DropCR(line);
    NoIndex(DropCR(line), '=');
  }

  lemma {:induction false} ParseFileLines(lead: string, pairs: seq<Pair>)
    requires Silent(lead) && AllProper(pairs)
    ensures ParseLines(FileLines(lead, pairs)) == Texts(pairs)
  {
    if pairs == [] {
      ParseLead(lead);
    } else {
      var n := |pairs| - 1;
      ParseFileLines(lead, pairs[..n]);
      ParsePair(FileLines(lead, pairs[..n]), pairs[n]);
      TextsSnoc(pairs);
    }
  }

  lemma ParseLead(lead: string)
    requires Silent(lead)
    ensures ParseLines([lead]) == []
  {
    SilentLine(lead);
    ParseLinesSnoc([], lead);
    assert [] + [lead] == [lead];
  }

  lemma TextsSnoc(pairs: seq<Pair>)
    requires pairs != []
    ensures Texts(pairs) == Texts(pairs[..|pairs| - 1]) + [PairText(pairs[|pairs| - 1])]
  {
  }

  lemma ParsePair(before: seq<string>, p: Pair)
    requires Proper(p)
    ensures ParseLines(before + [PairText(p), ""]) == ParseLines(before) + [PairText(p)]
  {
    ProperLine(p);
    ParseTwoMore(before, PairText(p));
  }

  lemma {:induction false} FileLinesFit(lead: string, pairs: seq<Pair>)
    requires Silent(lead) && AllProper(pairs)
    ensures ShortLines(FileLines(lead, pairs)) && NoBreaks(FileLines(lead, pairs))
  {
    if pairs != [] {
      var n := |pairs| - 1;
      FileLinesFit(lead, pairs[..n]);
      ProperLine(pairs[n]);
      ShortAppend(FileLines(lead, pairs[..n]), PairText(pairs[n]));
    }
  }

  lemma ParseTwoMore(before: seq<string>, text: string)
    ensures ParseLines(before + [text, ""]) == ParseLines(before) + ParseLine(DropCR(text))
  {
    SilentLine("");
    ParseLinesSnoc(before, text);
    ParseLinesSnoc(before + [text], "");
    assert before + [text] + [""] == before + [text, ""];
    assert ParseLines(before + [text]) + [] == ParseLines(before + [text]);
  }

  lemma ParseLinesSnoc(lines: seq<string>, line: string)
    ensures ParseLines(lines + [line]) == ParseLines(lines) + ParseLine(DropCR(line))
  {
    assert (lines + [line])[..|lines|] == lines;
  }

  lemma ShortAppend(before: seq<string>, text: string)
    requires ShortLines(before) && Utf8Len(text) < MAX_SCAN_TOKEN_SIZE
    requires NoBreaks(before) && '\n' !in text
    ensures ShortLines(before + [text, ""]) && NoBreaks(before + [text, ""])
  {
  }

  /** Properties round trip: parsing the printed form of proper pairs gives back the same list. */
  lemma PropertiesRoundTrip(lead: string, pairs: seq<Pair>)
    requires Silent(lead) && AllProper(pairs)
    ensures ParseProperties(SecretsFile(lead, pairs)) == Some(Texts(pairs))
  {
    ParseFileLines(lead, pairs);
    FileLinesFit(lead, pairs);
    FileIsLines(lead, pairs);
    RawLinesUnlines(FileLines(lead, pairs));
  }

  /* ---------- Parsing again what was parsed ---------- */

  lemma LinePairs(line: string) returns (pairs: seq<Pair>)
    requires '\n' !in line && Utf8Len(line) < MAX_SCAN_TOKEN_SIZE
    ensures ParseLine(DropCR(line)) == Texts(pairs) && AllProper(pairs)
  {
    var l := DropCR(line);
    var equal := Index(l, "=");
    pairs := [];
    if equal >= 0 && TrimSpace(l[..equal]) != "" {
      Utf8LenSlice(line, 0, |l|);
      assert line[0..|l|] == l;
      var p := SplitPair(l, equal);
      pairs := [p];
    }
  }

  lemma SplitPair(l: string, equal: nat) returns (p: Pair)
    requires '\n' !in l && Utf8Len(l) < MAX_SCAN_TOKEN_SIZE
    requires equal == Index(l, "=") && TrimSpace(l[..equal]) != ""
    ensures p == Pair(TrimSpace(l[..equal]), TrimSpace(l[equal + 1..])) && Proper(p)
  {
    var key, value := l[..equal], l[equal + 1..];
    p := Pair(TrimSpace(key), TrimSpace(value));
    BeforeEqual(l, equal);
    TrimKeeps(key, '=');
    TrimKeeps(key, '\n');
    TrimKeeps(value, '\n');
    PairLength(p.key, p.value);
    PairLength(key, value);
    assert l == key + "=" + value by { IndexFirst(l, "="); }
  }

  /** Trimming is idempotent, adds no character and no byte. */
  lemma TrimKeeps(s: string, c: char)
    ensures TrimSpace(TrimSpace(s)) == TrimSpace(s)
    ensures c !in s ==> c !in TrimSpace(s)
    ensures Utf8Len(TrimSpace(s)) <= Utf8Len(s)
  {
    var i, j := TrimCut(s);
    TrimFixed(TrimSpace(s));
    Utf8LenSlice(s, i, j);
  }

  lemma PairLength(key: string, value: string)
    ensures Utf8Len(key + "=" + value) == Utf8Len(key) + Utf8Len("=") + Utf8Len(value)
  {
    Utf8LenAppend(key + "=", value);
    Utf8LenAppend(key, "=");
  }

  /** No equals sign stands before the first one. */
  lemma BeforeEqual(l: string, equal: nat)
    requires equal == Index(l, "=")
    ensures '=' !in l[..equal]
  {
    IndexFirst(l, "=");
    forall k | 0 <= k < equal
      ensures l[..equal][k] != '='
    {
      assert l[k..k + 1] == [l[k]];
      assert !OccursAt(l, "=", k);
    }
  }

  lemma {:induction false} LinesPairs(lines: seq<string>) returns (pairs: seq<Pair>)
    requires ShortLines(lines) && NoBreaks(lines)
    ensures ParseLines(lines) == Texts(pairs) && AllProper(pairs)
  {
    if lines == [] {
      pairs := [];
    } else {
      var before := LinesPairs(lines[..|lines| - 1]);
      var last := LinePairs(lines[|lines| - 1]);
      pairs := before + last;
      assert Texts(pairs) == Texts(before) + Texts(last);
    }
  }

  /** Parsing, printing and parsing again is parsing once, on any file the scanner accepts. */
  lemma ParsePrintParse(contents: string, lead: string) returns (pairs: seq<Pair>)
    requires ParseProperties(contents).Some? && Silent(lead)
    ensures ParseProperties(contents) == Some(Texts(pairs))
    ensures ParseProperties(SecretsFile(lead, pairs)) == ParseProperties(contents)
  {
    SplitEntries(contents, '\n');
    pairs := LinesPairs(RawLines(contents));
    PropertiesRoundTrip(lead, pairs);
  }
}
