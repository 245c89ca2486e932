/** The words of a post-start hook: how the mount path placeholder is filled, and exactly which mount paths
    leave no placeholder behind. */
module Hooks {
  import opened Text
  import opened Templates
  import opened Secrets

  /* ---------- Word by word ---------- */

  /** The first placeholder of a word stands between a and b. */
  predicate FirstTag(a: string, b: string) {
    forall j :: 0 <= j < |a| ==> !OccursAt(a + "<VSI_SECRETS_VOL_MOUNTPATH>" + b, "<VSI_SECRETS_VOL_MOUNTPATH>", j)
  }

  /** The first placeholder of a word becomes the mount path, and what follows it is filled in turn. */
  lemma WordFilled(a: string, b: string, mountPath: string)
    requires FirstTag(a, b)
    ensures HookWord(a + "<VSI_SECRETS_VOL_MOUNTPATH>" + b, mountPath) == a + mountPath + HookWord(b, mountPath)
  {
    var t := MOUNT_PATH_TAG;
    FoundBetween(a, t, b);
    ReplaceFirst(a + t + b, t, mountPath, |a|);
  }

  lemma FoundBetween(a: string, t: string, b: string)
    ensures OccursAt(a + t + b, t, |a|) && (a + t + b)[..|a|] == a && (a + t + b)[|a| + |t|..] == b
  {
  }

  /** A word without placeholder is kept. */
  lemma WordKept(word: string, mountPath: string)
    requires forall j :: !OccursAt(word, "<VSI_SECRETS_VOL_MOUNTPATH>", j)
    ensures HookWord(word, mountPath) == word
  {
    ReplaceNone(word, MOUNT_PATH_TAG, mountPath);
  }

  /* ---------- When no placeholder is left ---------- */

  predicate HoldsTag(s: string) {
    exists i :: 0 <= i <= |s| && MOUNT_PATH_TAG <= s[i..]
  }

  /** The path neither holds nor half-opens the placeholder, nor can stand inside or at the end of one. */
  predicate Inert(p: string) {
    && (forall i :: 0 <= i < |p| ==> !Comparable(p[i..], MOUNT_PATH_TAG))
    && (forall k :: 0 < k < |MOUNT_PATH_TAG| ==> !Comparable(p, MOUNT_PATH_TAG[k..]))
  }

  lemma TagText()
    ensures MOUNT_PATH_TAG != "" && MOUNT_PATH_TAG[0] == '<' && '/' !in MOUNT_PATH_TAG
    ensures forall j :: 0 < j < |MOUNT_PATH_TAG| ==> MOUNT_PATH_TAG[j] != '<'
  {
  }

  lemma PrefixCons(u: string, c: char, rest: string)
    requires u != ""
    ensures u <= [c] + rest <==> u[0] == c && u[1..] <= rest
  {
    var whole := [c] + rest;
    assert whole[1..] == rest && u == [u[0]] + u[1..];
    if |u| <= |whole| {
      assert whole[..|u|] == [c] + rest[..|u| - 1];
    }
  }

  lemma PrefixLonger(a: string, b: string, t: string)
    requires !Comparable(a, t)
    ensures !(t <= a + b)
  {
    if |t| <= |a| {
      PrefixOfFront(a, t, b);
    } else {
      assert (a + b)[..|a|] == a;
    }
  }

  /** Along a text: what remains of t, if the text does not meet it, is not met once the text is filled. */
  lemma {:induction false} StartsOnly(w: string, t: string, p: string, k: nat)
    requires k < |t| && !(t[k..] <= w) && forall i :: 0 < i < |t| ==> !Comparable(p, t[i..])
    ensures !(t[k..] <= ReplaceAll(w, t, p))
    decreases |w|
  {
    if t <= w {
      assert t[0..] == t;
      ReplaceStart(w, t, p);
      PrefixLonger(p, ReplaceAll(w[|t|..], t, p), t[k..]);
    } else if w != "" {
      ReplaceOne(w, t, p);
      PrefixCons(t[k..], w[0], ReplaceAll(w[1..], t, p));
      PrefixCons(t[k..], w[0], w[1..]);
      assert [w[0]] + w[1..] == w && t[k..][1..] == t[k + 1..];
      if k + 1 < |t| && t[k] == w[0] {
        StartsOnly(w[1..], t, p, k + 1);
      }
    }
  }

  lemma {:induction false} NoneLeftIn(w: string, p: string)
    requires Inert(p)
    ensures !HoldsTag(HookWord(w, p))
    decreases |w|
  {
    TagText();
    var t := MOUNT_PATH_TAG;
    if w != "" {
      if t <= w {
        ReplaceStart(w, t, p);
        NoneLeftIn(w[|t|..], p);
        NoneAfter(p, HookWord(w[|t|..], p));
      } else {
        ReplaceOne(w, t, p);
        NoneLeftIn(w[1..], p);
        assert t[0..] == t;
        StartsOnly(w, t, p, 0);
        NoneAfterChar(w[0], HookWord(w[1..], p));
      }
    }
  }

  lemma NoneAfter(p: string, rest: string)
    requires Inert(p) && !HoldsTag(rest)
    ensures !HoldsTag(p + rest)
  {
    forall i | 0 <= i <= |p + rest|
      ensures !(MOUNT_PATH_TAG <= (p + rest)[i..])
    {
      if i < |p| {
        assert (p + rest)[i..] == p[i..] + rest;
        PrefixLonger(p[i..], rest, MOUNT_PATH_TAG);
      } else {
        assert (p + rest)[i..] == rest[i - |p|..];
      }
    }
  }

  lemma NoneAfterChar(c: char, rest: string)
    requires !HoldsTag(rest) && !(MOUNT_PATH_TAG <= [c] + rest)
    ensures !HoldsTag([c] + rest)
  {
    forall i | 0 <= i <= |[c] + rest|
      ensures !(MOUNT_PATH_TAG <= ([c] + rest)[i..])
    {
      if i == 0 {
        assert ([c] + rest)[0..] == [c] + rest;
      } else {
        assert ([c] + rest)[i..] == rest[i - 1..];
      }
    }
  }

  /** A word in which a path that is not inert forms a placeholder. */
  lemma Formed(p: string) returns (w: string)
    requires !Inert(p)
    ensures HoldsTag(HookWord(w, p))
  {
    TagText();
    var t := MOUNT_PATH_TAG;
    if i :| 0 <= i < |p| && Comparable(p[i..], t) {
      w := FormedAfter(p, i);
    } else {
      var k :| 0 < k < |t| && Comparable(p, t[k..]);
      w := FormedBefore(p, k);
    }
  }

  lemma FormedAfter(p: string, i: nat) returns (w: string)
    requires i < |p| && Comparable(p[i..], MOUNT_PATH_TAG)
    ensures HoldsTag(HookWord(w, p))
  {
    TagText();
    var t := MOUNT_PATH_TAG;
    var tail := if t <= p[i..] then "" else t[|p| - i..];
    w := t + tail;
    if !(t <= p[i..]) {
      PlainAfter(|p| - i);
    }
    FillsTag("", tail, p);
    FromNothing(t, tail);
    FromNothing(p, tail);
    CompletedAfter(p, i, t, tail);
  }

  lemma PlainAfter(n: nat)
    requires 0 < n <= |MOUNT_PATH_TAG|
    ensures '<' !in MOUNT_PATH_TAG[n..]
  {
    TagText();
  }

  lemma FromNothing(a: string, b: string)
    ensures "" + a + b == a + b
  {
  }

  lemma CompletedAfter(p: string, i: nat, t: string, tail: string)
    requires i < |p| && Comparable(p[i..], t) && tail == if t <= p[i..] then "" else t[|p| - i..]
    ensures t <= (p + tail)[i..]
  {
    assert (p + tail)[i..] == p[i..] + tail;
  }

  lemma FormedBefore(p: string, k: nat) returns (w: string)
    requires 0 < k < |MOUNT_PATH_TAG| && Comparable(p, MOUNT_PATH_TAG[k..])
    ensures HoldsTag(HookWord(w, p))
  {
    TagText();
    var t := MOUNT_PATH_TAG;
    var tail := if t[k..] <= p then "" else t[k + |p|..];
    w := t[..k] + t + tail;
    FillsTag(t[..k], tail, p);
    CompletedBefore(p, k, t, tail);
  }

  lemma CompletedBefore(p: string, k: nat, t: string, tail: string)
    requires k < |t| && Comparable(p, t[k..]) && tail == if t[k..] <= p then "" else t[k + |p|..]
    ensures t <= (t[..k] + p + tail)[0..]
  {
    assert t == t[..k] + t[k..] && t[k..] <= p + tail;
    assert (t[..k] + p + tail)[0..] == t[..k] + (p + tail);
  }

  /** A start of the placeholder, the placeholder itself and bracket-free text. */
  lemma FillsTag(a: string, tail: string, p: string)
    requires a < MOUNT_PATH_TAG && '<' !in tail
    ensures HookWord(a + MOUNT_PATH_TAG + tail, p) == a + p + tail
  {
    TagText();
    var t := MOUNT_PATH_TAG;
    var whole := a + t + tail;
    FoundBetween(a, t, tail);
    forall j | 0 <= j < |a|
      ensures !OccursAt(whole, t, j)
    {
      assert whole[|a|] == '<';
      if j + |t| <= |whole| {
        assert whole[j..j + |t|][|a| - j] == whole[|a|];
      }
    }
    ReplaceFirst(whole, t, p, |a|);
    forall j
      ensures !OccursAt(tail, t, j)
    {
      if 0 <= j && j + |t| <= |tail| {
        assert tail[j..j + |t|][0] == tail[j];
      }
    }
    ReplaceNone(tail, t, p);
  }

  /** No placeholder is left, whatever the word, exactly when the mount path is inert. */
  lemma NoneLeftIff(p: string)
    ensures (forall w :: !HoldsTag(HookWord(w, p))) <==> Inert(p)
  {
    if Inert(p) {
      forall w { NoneLeftIn(w, p); }
    } else {
      var w := Formed(p);
    }
  }

  /** An absolute path without '<' is inert; a relative one may not be. */
  lemma AbsoluteInert(p: string)
    requires p != "" && p[0] == '/' && '<' !in p
    ensures Inert(p)
  {
    TagText();
    var t := MOUNT_PATH_TAG;
    forall i | 0 <= i < |p|
      ensures !Comparable(p[i..], t)
    {
      assert p[i..][0] == p[i];
    }
    forall k | 0 < k < |t|
      ensures !Comparable(p, t[k..])
    {
      assert t[k..][0] == t[k];
    }
  }

  lemma RelativeFormed()
    ensures '<' !in "MOUNTPATH" && HookWord("<VSI_SECRETS_VOL_" + MOUNT_PATH_TAG + ">", "MOUNTPATH") == MOUNT_PATH_TAG
  {
    FillsTag("<VSI_SECRETS_VOL_", ">", "MOUNTPATH");
  }
}
