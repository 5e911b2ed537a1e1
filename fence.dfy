/** Lines 245-249 of backend/audio_service.py: removing the markdown code
    fence a model may put around the JSON it returns. */
module Fence {
  import opened Text

  predicate IsBacktick(c: char) { c == '`' }

  /** The characters `str.lstrip("json")` removes. */
  predicate IsJsonLetter(c: char) { c in {'j', 's', 'o', 'n'} }

  /** Lines 245-249: the reply text with an optional markdown code fence
      removed. */
  function Unfence(content: string): (r: string)
    ensures !StartsWith(Strip(content), "```") ==> r == Strip(content)
  {
    var c := Strip(content);
    if StartsWith(c, "```") then
      var inner := OpenStrip(c);
      if EndsWith(inner, "```") then Strip(inner[..|inner| - 3]) else inner
    else c
  }

  /** Line 247: the backticks, then the letters of `json`, then whitespace
      removed from the left, and whitespace from the right. */
  function OpenStrip(c: string): (r: string)
    ensures |r| <= |OpenLeft(c)| && r == OpenLeft(c)[..|r|]
    ensures forall j :: |r| <= j < |OpenLeft(c)| ==> IsSpace(OpenLeft(c)[j])
    ensures r != [] ==> !IsSpace(r[0]) && !IsSpace(r[|r| - 1])
  {
    var l := OpenLeft(c);
    var r := RStripBy(l, IsSpace);
    assert r != [] ==> r[0] == l[0];
    r
  }

  /** Where the three left strips of line 247 stop: after the leading
      backticks, then the letters of `json` after them, then the whitespace
      after those. */
  function OpenFrom(c: string): (k: nat)
    ensures k <= |c| && (k < |c| ==> !IsSpace(c[k]))
  {
    SkipFrom(c, IsSpace, SkipFrom(c, IsJsonLetter, SkipFrom(c, IsBacktick, 0)))
  }

  /** What the three left strips leave of `c`: a suffix of it that does not
      start with whitespace. */
  function OpenLeft(c: string): (l: string)
    ensures EndsWith(c, l)
    ensures l != [] ==> !IsSpace(l[0])
  {
    c[OpenFrom(c)..]
  }

  /** `OpenLeft` is the chain `lstrip("`").lstrip("json").lstrip()`. */
  lemma OpenLeftIsLStrips(c: string)
    ensures OpenLeft(c) == LStripBy(LStripBy(LStripBy(c, IsBacktick), IsJsonLetter), IsSpace)
  {
    var i1 := SkipFrom(c, IsBacktick, 0);
    var i2 := SkipFrom(c, IsJsonLetter, i1);
    assert c[0..] == c;
    LStripFrom(c, IsBacktick, 0);
    LStripFrom(c, IsJsonLetter, i1);
    LStripFrom(c, IsSpace, i2);
  }

  /** The fence a model puts around its reply: three backticks, an optional
      language tag of the letters j, s, o, n (such as `json`), a newline, the
      body, a newline and three backticks. */
  function Fenced(tag: string, body: string): string
  {
    "```" + tag + "\n" + (body + "\n```")
  }

  /** A trailing newline is all `strip()` removes from a trimmed body. */
  lemma StripNewline(body: string)
    requires body != [] && !IsSpace(body[0]) && !IsSpace(body[|body| - 1])
    ensures Strip(body + "\n") == body
  {
    LStripConcat([], body + "\n", IsSpace);
    assert [] + (body + "\n") == body + "\n";
    RStripConcat(body, "\n", IsSpace);
  }

  /** The three left strips of line 247 remove the opening backticks,
      the tag and the newline after it. */
  lemma OpenFence(tag: string, rest: string)
    requires AllAre(tag, IsJsonLetter)
    requires rest != [] && !IsSpace(rest[0])
    ensures OpenLeft("```" + tag + "\n" + rest) == rest
  {
    var f := "```" + tag + "\n" + rest;
    var n := 3 + |tag|;
    assert forall j :: 0 <= j < 3 ==> f[j] == '`';
    assert forall j :: 3 <= j < n ==> f[j] == tag[j - 3];
    assert f[n] == '\n' && f[n + 1] == rest[0];
    assert |tag| > 0 ==> f[3] == tag[0];
    SkipFromExact(f, IsBacktick, 0, 3);
    SkipFromExact(f, IsJsonLetter, 3, n);
    SkipFromExact(f, IsSpace, n, n + 1);
    assert f[n + 1..] == rest;
  }

  /** The right strip and the closing-fence test of lines 247-249. */
  lemma CloseFence(body: string)
    requires body != [] && !IsSpace(body[0]) && !IsSpace(body[|body| - 1])
    ensures var inner := body + "\n```";
            && RStripBy(inner, IsSpace) == inner
            && EndsWith(inner, "```")
            && Strip(inner[..|inner| - 3]) == body
  {
    var inner := body + "\n```";
    RStripConcat(inner, [], IsSpace);
    assert inner + [] == inner;
    assert inner[|inner| - 3..] == "```";
    assert inner[..|inner| - 3] == body + "\n";
    StripNewline(body);
  }

  /** A text between backticks is left as it is by `strip()`. */
  lemma StripTicked(f: string)
    requires |f| >= 3 && f[0] == '`' && f[|f| - 1] == '`'
    ensures Strip(f) == f
  {
    StripKeeps(f);
  }

  lemma FenceEnds(f: string, tag: string, inner: string)
    requires |inner| >= 3 && inner[|inner| - 1] == '`'
    requires f == "```" + tag + "\n" + inner
    ensures |f| >= 3 && f[0] == '`' && f[|f| - 1] == '`'
  {
  }

  lemma FenceStarts(f: string, tag: string, inner: string)
    requires f == "```" + tag + "\n" + inner
    ensures StartsWith(f, "```")
  {
    assert f[..3] == "```";
  }

  lemma RStripTicked(s: string)
    requires s != [] && s[|s| - 1] == '`'
    ensures RStripBy(s, IsSpace) == s
  {
    RStripConcat(s, [], IsSpace);
    assert s + [] == s;
  }

  /** The strips of line 247 reach the body of a fenced text. */
  lemma OpenStripFenced(tag: string, body: string)
    requires AllAre(tag, IsJsonLetter)
    requires body != [] && !IsSpace(body[0]) && !IsSpace(body[|body| - 1])
    ensures OpenStrip(Fenced(tag, body)) == body + "\n```"
  {
    var inner := body + "\n```";
    assert inner[0] == body[0] && inner[|inner| - 1] == '`';
    assert Fenced(tag, body) == "```" + tag + "\n" + inner;
    OpenFence(tag, inner);
    RStripTicked(inner);
  }

  /** Removing the fence gives back the body, whatever the tag. */
  lemma UnfenceFenced(tag: string, body: string)
    requires AllAre(tag, IsJsonLetter)
    requires body != [] && !IsSpace(body[0]) && !IsSpace(body[|body| - 1])
    ensures Unfence(Fenced(tag, body)) == body
  {
    var f := Fenced(tag, body);
    var inner := body + "\n```";
    assert inner[|inner| - 1] == '`';
    FenceEnds(f, tag, inner);
    StripTicked(f);
    FenceStarts(f, tag, inner);
    OpenStripFenced(tag, body);
    CloseFence(body);
  }

  /** A reply cut off before its closing fence: the opening fence and its
      tag are removed all the same, and the body is left as it is. */
  lemma UnfenceUnclosed(tag: string, body: string)
    requires AllAre(tag, IsJsonLetter)
    requires body != [] && !IsSpace(body[0]) && !IsSpace(body[|body| - 1])
    requires !EndsWith(body, "```")
    ensures Unfence("```" + tag + "\n" + body) == body
  {
    var f := "```" + tag + "\n" + body;
    assert f[0] == '`' && f[|f| - 1] == body[|body| - 1];
    StripKeeps(f);
    FenceStarts(f, tag, body);
    OpenFence(tag, body);
    RStripConcat(body, [], IsSpace);
    assert body + [] == body;
  }

  /** The example reply: a fenced `json` block around `{"school":"X"}`. */
  lemma UnfenceExample()
    ensures Unfence("```json\n{\"school\":\"X\"}\n```") == "{\"school\":\"X\"}"
  {
    assert "```json\n{\"school\":\"X\"}\n```" == Fenced("json", "{\"school\":\"X\"}");
    UnfenceFenced("json", "{\"school\":\"X\"}");
  }
}
