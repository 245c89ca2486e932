/** The templates computed by the secrets mode: which entries each block pairs, and what the blocks look
    like once rendered. */
module Rendering {
  import opened Text
  import opened Config
  import opened Templates
  import opened Secrets
  import opened Meaning

  /** Each block with its line break. */
  function Rendered(block: string, vs: seq<Values>): seq<string> {
    seq(|vs|, i requires 0 <= i < |vs| => Render(block, vs[i]) + "\n")
  }

  lemma {:induction false} ConcatSnoc(parts: seq<string>, last: string)
    ensures Concat(parts + [last]) == Concat(parts) + last
  {
    if parts == [] {
      assert [] + [last] == [last] && [last][1..] == [];
    } else {
      ConcatSnoc(parts[1..], last);
      assert (parts + [last])[1..] == parts[1..] + [last];
    }
  }

  lemma {:induction false} BlocksConcat(block: string, vs: seq<Values>)
    ensures Blocks(block, vs) == Concat(Rendered(block, vs))
  {
    if vs != [] {
      var n := |vs| - 1;
      BlocksConcat(block, vs[..n]);
      ConcatSnoc(Rendered(block, vs[..n]), Render(block, vs[n]) + "\n");
      assert Rendered(block, vs) == Rendered(block, vs[..n]) + [Render(block, vs[n]) + "\n"];
      Regroup(Blocks(block, vs[..n]), Render(block, vs[n]), "\n");
    }
  }

  /** Entry k of an annotation's list, or nothing past its end. */
  function EntryOr(entries: seq<string>, k: nat, missing: string): string {
    if k < |entries| then entries[k] else missing
  }

  /** The default destination when none is given, else entry i of the destinations given. */
  predicate DestinationPaired(cfg: VSIConfig, a: Annotations, i: nat, destination: string) {
    var given := Raw(cfg, a, "secrets-destination");
    if given == "" then i == 0 && destination == "secrets.properties"
    else i < |Split(given, ",")| && destination == Split(given, ",")[i]
  }

  /** The default template when none is given, else template i of as many as there are destinations. */
  predicate TemplatePaired(cfg: VSIConfig, a: Annotations, i: nat, content: string) {
    var given := Raw(cfg, a, "secrets-template");
    if given == "" then content == cfg.templateDefaultTmpl
    else |Split(given, "---")| == Count(cfg, a) && content == EntryOr(Split(given, "---"), i, "")
  }

  /** No path beside given templates; else, when none is given, the only block's path made of the application
      label and the service label, in that order; else path i of as many as there are destinations. */
  predicate PathPaired(cfg: VSIConfig, labels: map<string, string>, a: Annotations, i: nat, path: string) {
    var given := Raw(cfg, a, "secrets-path");
    if Raw(cfg, a, "secrets-template") != "" then path == ""
    else if given == "" then
      && Count(cfg, a) == 1
      && path == "secret/" + Lookup(labels, cfg.applicationLabelKey)
                 + "/" + Lookup(labels, cfg.applicationServiceLabelKey)
    else |Split(given, ",")| == Count(cfg, a) && path == EntryOr(Split(given, ","), i, "")
  }

  /** The number of destinations, one when none is given. */
  function Count(cfg: VSIConfig, a: Annotations): nat {
    |Split(Raw(cfg, a, "secrets-destination"), ",")|
  }

  lemma CountIs(cfg: VSIConfig, a: Annotations)
    ensures Count(cfg, a) == |Destinations(cfg, a)|
    ensures Raw(cfg, a, "secrets-destination") == "" ==> Count(cfg, a) == 1
  {
    EmptyEntry(Raw(cfg, a, "secrets-destination"), ",");
  }

  /** Pairing: an accepted configuration is the concatenation, in order, of one block per destination;
      block i pairs destination i with its template, its path and command i when there is one. */
  lemma Pairing(cfg: VSIConfig, labels: map<string, string>, a: Annotations, i: nat)
    requires SecretsConfig(cfg, labels, a).Success? && i < Count(cfg, a)
    ensures !CountMismatch(cfg, labels, a)
    ensures SecretsConfig(cfg, labels, a).value.template ==
            Concat(Rendered(cfg.templateBlock, AllValues(cfg, labels, a)))
    ensures |AllValues(cfg, labels, a)| == Count(cfg, a)
    ensures var v := AllValues(cfg, labels, a)[i];
      && DestinationPaired(cfg, a, i, v.destination)
      && TemplatePaired(cfg, a, i, v.content)
      && PathPaired(cfg, labels, a, i, v.path)
      && v.command == EntryOr(Split(Raw(cfg, a, "notify"), ","), i, "")
  {
    BlocksConcat(cfg.templateBlock, AllValues(cfg, labels, a));
    CountIs(cfg, a);
    PairsDestination(cfg, a, i);
    PairsTemplate(cfg, labels, a, i);
    PairsPath(cfg, labels, a, i);
  }

  lemma PairsDestination(cfg: VSIConfig, a: Annotations, i: nat)
    requires i < |Destinations(cfg, a)|
    ensures DestinationPaired(cfg, a, i, Destinations(cfg, a)[i])
  {
    EmptyEntry(Raw(cfg, a, "secrets-destination"), ",");
  }

  lemma PairsTemplate(cfg: VSIConfig, labels: map<string, string>, a: Annotations, i: nat)
    requires !CountMismatch(cfg, labels, a) && i < |Destinations(cfg, a)|
    ensures TemplatePaired(cfg, a, i, BlockValues(cfg, labels, a, i).content)
  {
    CountIs(cfg, a);
    EmptyEntry(Raw(cfg, a, "secrets-template"), "---");
  }

  lemma PairsPath(cfg: VSIConfig, labels: map<string, string>, a: Annotations, i: nat)
    requires !CountMismatch(cfg, labels, a) && i < |Destinations(cfg, a)|
    ensures PathPaired(cfg, labels, a, i, BlockValues(cfg, labels, a, i).path)
  {
    CountIs(cfg, a);
    EmptyEntry(Raw(cfg, a, "secrets-template"), "---");
    EmptyEntry(Raw(cfg, a, "secrets-path"), ",");
    DefaultPathIs(cfg, labels);
  }

  lemma DefaultPathIs(cfg: VSIConfig, labels: map<string, string>)
    ensures DefaultPath(cfg, labels) ==
            "secret/" + Lookup(labels, cfg.applicationLabelKey) + "/" + Lookup(labels, cfg.applicationServiceLabelKey)
  {
    assert DEFAULT_ENGINE_PATH + "/" == "secret/";
  }

  /** Each block filled by one simultaneous substitution. */
  function Filled(block: string, vs: seq<Values>): seq<string> {
    seq(|vs|, i requires 0 <= i < |vs| => Fill(Pieces(block), Simultaneous(Pieces(vs[i].content), vs[i])) + "\n")
  }

  predicate AllSafe(vs: seq<Values>) {
    forall i :: 0 <= i < |vs| ==> ValuesSafe(vs[i])
  }

  /** When the configured block and each destination, template and path are safe, whatever the commands,
      the whole template is made of simultaneous substitutions. */
  lemma RenderedSecrets(cfg: VSIConfig, labels: map<string, string>, a: Annotations)
    requires SecretsConfig(cfg, labels, a).Success?
    requires BlockSafe(cfg.templateBlock) && AllSafe(AllValues(cfg, labels, a))
    ensures SecretsConfig(cfg, labels, a).value.template == Concat(Filled(cfg.templateBlock, AllValues(cfg, labels, a)))
  {
    BlocksConcat(cfg.templateBlock, AllValues(cfg, labels, a));
    RenderedFilled(cfg.templateBlock, AllValues(cfg, labels, a));
  }

  lemma RenderedFilled(block: string, vs: seq<Values>)
    requires BlockSafe(block) && AllSafe(vs)
    ensures Rendered(block, vs) == Filled(block, vs)
  {
    forall i | 0 <= i < |vs|
      ensures Rendered(block, vs)[i] == Filled(block, vs)[i]
    {
      PassesAreSimultaneous(block, vs[i]);
    }
  }

  /** No literal, of the block or of the template, and no value half-opens a placeholder, and the template
      has no hole for a destination or another template. */
  predicate OpensNone(block: string, v: Values) {
    && Sound(Pieces(block)) && Sound(Pieces(v.content)) && FillsItself(Pieces(v.content))
    && Settled(v.destination) && Settled(v.path) && Settled(v.command)
  }

  lemma {:induction false} SettledConcat(parts: seq<string>)
    requires forall i :: 0 <= i < |parts| ==> Settled(parts[i])
    ensures Settled(Concat(parts))
  {
    if parts != [] {
      SettledConcat(parts[1..]);
      SettledAppend(parts[0], Concat(parts[1..]));
    }
  }

  /** Then no placeholder is left anywhere in the template, not even across two blocks. */
  lemma NoneLeft(cfg: VSIConfig, labels: map<string, string>, a: Annotations)
    requires SecretsConfig(cfg, labels, a).Success?
    requires forall i :: 0 <= i < |AllValues(cfg, labels, a)| ==>
      OpensNone(cfg.templateBlock, AllValues(cfg, labels, a)[i])
    ensures Settled(SecretsConfig(cfg, labels, a).value.template)
  {
    BlocksConcat(cfg.templateBlock, AllValues(cfg, labels, a));
    RenderedSettled(cfg.templateBlock, AllValues(cfg, labels, a));
    SettledConcat(Rendered(cfg.templateBlock, AllValues(cfg, labels, a)));
  }

  lemma RenderedSettled(block: string, vs: seq<Values>)
    requires forall i :: 0 <= i < |vs| ==> OpensNone(block, vs[i])
    ensures forall i :: 0 <= i < |vs| ==> Settled(Rendered(block, vs)[i])
  {
    NoBracketSettled("\n");
    forall i | 0 <= i < |vs|
      ensures Settled(Rendered(block, vs)[i])
    {
      NoPlaceholderLeft(block, vs[i]);
      SettledAppend(Render(block, vs[i]), "\n");
    }
  }
}
