/** Caption assembly shared by the three uploaders
    (tools/post_instagram.py, tools/post_tiktok.py, tools/post_facebook.py):
    each hashtag gets exactly one leading `#`, the tags are joined by single
    spaces and appended to the caption after a platform separator, and the
    whole text is stripped of surrounding whitespace. */
module Captions {
  import opened Text

  /** Instagram and Facebook put a blank line between caption and tags. */
  const MetaSeparator: string := "\n\n"
  /** TikTok puts a single space between caption and tags. */
  const TikTokSeparator: string := " "

  /** One hashtag as emitted: every leading `#` removed, then one added. */
  function NormalizeTag(t: string): (r: string)
    ensures |r| >= 1 && r[0] == '#'
    ensures |r| > 1 ==> r[1] != '#'
    ensures r[1..] == LStripChar(t, '#')
  {
    "#" + LStripChar(t, '#')
  }

  function Hashes(n: nat): (h: string)
    ensures |h| == n && forall k :: 0 <= k < n ==> h[k] == '#'
  {
    if n == 0 then [] else "#" + Hashes(n - 1)
  }

  /** Any number of leading markers normalise away: "x", "#x" and "##x" give
      the same tag. */
  lemma {:induction false} NormalizeIgnoresHashes(n: nat, t: string)
    ensures NormalizeTag(Hashes(n) + t) == NormalizeTag(t)
  {
    if n > 0 {
      var s := Hashes(n) + t;
      assert s[0] == '#';
      assert s[1..] == Hashes(n - 1) + t;
      assert LStripChar(s, '#') == LStripChar(Hashes(n - 1) + t, '#');
      NormalizeIgnoresHashes(n - 1, t);
    } else {
      assert Hashes(n) + t == t;
    }
  }

  /** Normalising an already normalised tag changes nothing, so no tag ever
      comes out as "##x". */
  lemma NormalizeIdempotent(t: string)
    ensures NormalizeTag(NormalizeTag(t)) == NormalizeTag(t)
  {
    var r := NormalizeTag(t);
    assert r == Hashes(1) + r[1..];
    NormalizeIgnoresHashes(1, r[1..]);
    assert r[1..] == [] || r[1..][0] != '#';
  }

  function NormalizeTags(tags: seq<string>): seq<string> {
    seq(|tags|, k requires 0 <= k < |tags| => NormalizeTag(tags[k]))
  }

  lemma NormalizeTagsAt(tags: seq<string>, k: nat)
    requires k < |tags|
    ensures |NormalizeTags(tags)| == |tags| && NormalizeTags(tags)[k] == NormalizeTag(tags[k])
  {
  }

  /** `" ".join(f"#{t.lstrip('#')}" for t in hashtags)` */
  function TagString(tags: seq<string>): (r: string)
    ensures tags == [] ==> r == []
    ensures tags != [] ==> r != [] && r[0] == '#'
  {
    var norm := NormalizeTags(tags);
    assert tags != [] ==> norm[0][0] == '#' by {
      if tags != [] { NormalizeTagsAt(tags, 0); }
    }
    Join(norm, " ")
  }

  /** Tags that agree once their leading markers are stripped give the same
      tag string: `["#a", "b"]` and `["a", "b"]` are interchangeable. */
  lemma TagStringUpToMarkers(a: seq<string>, b: seq<string>)
    requires |a| == |b|
    requires forall k :: 0 <= k < |a| ==> LStripChar(a[k], '#') == LStripChar(b[k], '#')
    ensures TagString(a) == TagString(b)
  {
    assert NormalizeTags(a) == NormalizeTags(b);
  }

  /** `f"{caption}{sep}{tag_str}".strip()` */
  function FullCaption(caption: string, sep: string, tags: seq<string>): (r: string)
    ensures |r| <= |caption| + |sep| + |TagString(tags)|
    ensures r == [] || (!IsSpace(r[0]) && !IsSpace(r[|r| - 1]))
  {
    Strip(caption + sep + TagString(tags))
  }

  /** With no hashtags the assembled caption is just the caption, stripped:
      the separator never dangles at the end. */
  lemma CaptionWithoutTags(caption: string, sep: string)
    requires AllSpace(sep)
    ensures FullCaption(caption, sep, []) == Strip(caption)
  {
    assert TagString([]) == [];
    assert caption + sep + [] == caption + sep;
    StripIgnoresTrailingSpace(caption, sep);
  }

  /** A tag that does not end in whitespace normalises to one that does not
      either: it ends in its own last character, or is just "#". */
  lemma NormalizedTagEndsPlain(t: string)
    requires EndsPlain(t)
    ensures EndsPlain(NormalizeTag(t))
  {
    var stripped := LStripChar(t, '#');
    var r := NormalizeTag(t);
    if stripped == [] {
      assert r == "#";
    } else {
      assert r[|r| - 1] == stripped[|stripped| - 1] == t[|t| - 1];
    }
  }

  /** A non-empty tag list whose last tag does not end in whitespace yields a
      tag string that does not end in whitespace. */
  lemma TagStringEndsPlain(tags: seq<string>)
    requires |tags| > 0 && EndsPlain(tags[|tags| - 1])
    ensures TagString(tags) != [] && EndsPlain(TagString(tags))
  {
    var last := |tags| - 1;
    var norm := NormalizeTags(tags);
    NormalizeTagsAt(tags, last);
    NormalizedTagEndsPlain(tags[last]);
    JoinEndsPlain(norm, " ");
  }

  /** A caption that does not start with whitespace, followed by hashtags
      whose last one does not end in whitespace, is posted exactly as
      `caption + sep + "#t1 #t2 ..."`: the strip removes nothing. */
  lemma PlainCaptionKeptVerbatim(caption: string, sep: string, tags: seq<string>)
    requires caption != [] && !IsSpace(caption[0])
    requires |tags| > 0 && EndsPlain(tags[|tags| - 1])
    ensures FullCaption(caption, sep, tags) == caption + sep + TagString(tags)
  {
    var ts := TagString(tags);
    TagStringEndsPlain(tags);
    var full := caption + sep + ts;
    assert !IsSpace(full[0]) by {
      assert full[0] == caption[0];
    }
    assert !IsSpace(full[|full| - 1]) by {
      assert full[|full| - 1] == ts[|ts| - 1];
    }
    StripOfTrimmed(full);
  }
}
