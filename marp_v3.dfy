/**
 * MarpSlideGenerator of the V3 video generator (src/scripts/generate_video_v3.py):
 * the Marp header it prepends, the slide count it reports, the fallback deck and
 * the deck title read back with the pattern `^#\s+(.+)$` in multi-line mode.
 */
module MarpV3 {
  import opened Wrappers
  import opened Text

  /** The colours of a TOPIC_COLORS entry the header uses. */
  datatype TopicColors = TopicColors(primary: string, secondary: string, bg: string, bgSecondary: string)

  /** The `ai_tools` entry, the default scheme. */
  const AiToolsColors: TopicColors := TopicColors("#3b82f6", "#93c5fd", "#1a1a2e", "#0d1528")

  /** `_add_marp_header`'s front matter and style block. */
  function Header(c: TopicColors): (h: string)
    ensures StartsWith(h, "---")
  {
    var body := "\nmarp: true\ntheme: default\npaginate: true\nbackgroundColor: " + c.bg
    + "\ncolor: #ffffff\nstyle: |\n  section {\n    font-family: 'Noto Sans JP', 'Hiragino Sans', sans-serif;\n"
    + "    background: linear-gradient(135deg, " + c.bg + " 0%, " + c.bgSecondary + " 100%);\n  }\n"
    + "  h1 { color: " + c.primary + "; font-size: 64px; font-weight: 800; }\n"
    + "  h2 { color: " + c.secondary + "; font-size: 48px; }\n"
    + "  ul { font-size: 36px; line-height: 1.8; }\n---\n\n";
    StartsWithAppend("---", body, "---");
    "---" + body
  }

  /** Whether generate() keeps the text as it is: its stripped form already opens with "---". */
  predicate HasHeader(markdown: string) {
    StartsWith(Strip(markdown), "---")
  }

  /** A text that opens with "---" still does after stripping. */
  lemma StripKeepsDashes(x: string)
    requires StartsWith(x, "---")
    ensures StartsWith(Strip(x), "---")
  {
    assert !IsSpace('-');
    assert TrimStart(x) == x;
    var r := TrimEnd(x);
    TrimEndShape(x);
    assert x[2] == '-';
    assert |r| > 2;
    assert r[..3] == x[..3];
  }

  /** The header step of generate(): prepend the header unless the text already has one. */
  function EnsureHeader(markdown: string, c: TopicColors): (r: string)
    ensures HasHeader(r)
    ensures HasHeader(markdown) ==> r == markdown
    ensures !HasHeader(markdown) ==> r == Header(c) + markdown
  {
    if HasHeader(markdown) then markdown
    else
      StartsWithAppend(Header(c), markdown, "---");
      StripKeepsDashes(Header(c) + markdown);
      Header(c) + markdown
  }

  /** Adding the header is idempotent. */
  lemma EnsureHeaderIdempotent(markdown: string, c: TopicColors)
    ensures EnsureHeader(EnsureHeader(markdown, c), c) == EnsureHeader(markdown, c)
  {
  }

  /** `markdown.count("---") - 1` (the first "---" opens the header), but at least 1. */
  function SlideCount(markdown: string): (n: int)
    ensures n >= 1
    ensures Count(markdown, "---") >= 2 ==> n == Count(markdown, "---") - 1
    ensures Count(markdown, "---") < 2 ==> n == 1
    ensures n > 1 ==> Contains(markdown, "---")
  {
    var raw := Count(markdown, "---") - 1;
    if raw < 1 then 1 else raw
  }

  // ----- fallback deck -----

  const FallbackSeparator: string := "\n\n---\n\n"

  function TitleChunk(topicName: string): string {
    "<!-- _class: lead -->\n\n# " + topicName + "\n\n## 最新トレンド解説"
  }

  function PointChunk(k: nat): string {
    "# ポイント" + NatToString(k) + "\n\n- 重要なポイントを解説します\n- 最新の情報をお届け\n- 詳しくはブログで"
  }

  const EndingChunk: string := "<!-- _class: lead -->\n\n# まとめ\n\n## 詳しくはブログをご覧ください"

  /** What generate() returns: the deck, its slide count, its topic key and its title. */
  datatype MarpDeck = MarpDeck(markdown: string, slideCount: int, topic: string, title: string)

  /**
   * The slides of `_create_fallback_marp`: the title slide, points 1..n-2 for
   * `i in range(2, num_slides)`, then the closing slide, so at least two slides
   * whatever `num_slides` is.
   */
  method FallbackChunks(topicName: string, numSlides: int) returns (slides: seq<string>)
    ensures |slides| == Max(numSlides, 2)
    ensures slides[0] == TitleChunk(topicName) && slides[|slides| - 1] == EndingChunk
    ensures forall k :: 1 <= k < |slides| - 1 ==> slides[k] == PointChunk(k)
  {
    slides := [TitleChunk(topicName)];
    var i := 2;
    while i < numSlides
      invariant 2 <= i && |slides| == i - 1
      invariant i <= Max(numSlides, 2)
      invariant slides[0] == TitleChunk(topicName)
      invariant forall k :: 1 <= k < |slides| ==> slides[k] == PointChunk(k)
    {
      slides := slides + [PointChunk(i - 1)];
      i := i + 1;
    }
    slides := slides + [EndingChunk];
  }

  /**
   * `_create_fallback_marp`: the slides joined by blank-line-separated "---" with the
   * header in front; the reported count is `num_slides` as given and the title is the
   * topic name (`topic_info["name"]`, else the topic key).
   */
  method FallbackMarp(topic: string, topicInfoName: Option<string>, numSlides: int, c: TopicColors)
    returns (deck: MarpDeck, slides: seq<string>)
    ensures |slides| == Max(numSlides, 2)
    ensures slides[0] == TitleChunk(topicInfoName.GetOr(topic)) && slides[|slides| - 1] == EndingChunk
    ensures forall k :: 1 <= k < |slides| - 1 ==> slides[k] == PointChunk(k)
    ensures deck.markdown == Header(c) + Join(slides, FallbackSeparator)
    ensures HasHeader(deck.markdown)
    ensures deck == MarpDeck(deck.markdown, numSlides, topic, topicInfoName.GetOr(topic))
  {
    var topicName := topicInfoName.GetOr(topic);
    slides := FallbackChunks(topicName, numSlides);
    var markdown := Header(c) + Join(slides, FallbackSeparator);
    StartsWithAppend(Header(c), Join(slides, FallbackSeparator), "---");
    StripKeepsDashes(markdown);
    deck := MarpDeck(markdown, numSlides, topic, topicName);
  }

  // ----- title extraction -----

  /** The end of the whitespace run starting at `i` (what a greedy `\s+` reaches). */
  function SpaceRunEnd(s: string, i: nat): (j: nat)
    requires i <= |s|
    ensures i <= j <= |s| && (j == |s| || !IsSpace(s[j]))
    ensures forall k :: i <= k < j ==> IsSpace(s[k])
    decreases |s| - i
  {
    if i < |s| && IsSpace(s[i]) then SpaceRunEnd(s, i + 1) else i
  }

  /** The first '\n' at or after `i`, or the end: where `.+` stops and `$` matches. */
  function LineEnd(s: string, i: nat): (j: nat)
    requires i <= |s|
    ensures i <= j <= |s| && (j == |s| || s[j] == '\n')
    ensures forall k :: i <= k < j ==> s[k] != '\n'
    decreases |s| - i
  {
    if i < |s| && s[i] != '\n' then LineEnd(s, i + 1) else i
  }

  /** `^` in multi-line mode: the start of the text or just after a '\n'. */
  predicate LineStart(s: string, p: nat)
    requires p <= |s|
  {
    p == 0 || s[p - 1] == '\n'
  }

  predicate HasNonNewline(s: string, from: nat) {
    exists k :: from <= k < |s| && s[k] != '\n'
  }

  /**
   * Whether `^#\s+(.+)$` matches at `p`: a '#' opening a line, a non-empty whitespace
   * run (greedy, so it may run over line breaks), then at least one character other
   * than '\n' - after the run, or, when the run reaches the end of the text, inside it
   * once the run gives characters back.
   */
  predicate MatchesAt(s: string, p: nat)
    requires p < |s|
  {
    s[p] == '#' && LineStart(s, p) && p + 1 < |s| && IsSpace(s[p + 1])
    && (SpaceRunEnd(s, p + 1) < |s| || HasNonNewline(s, p + 2))
  }

  /**
   * The stripped capture at a match: the rest of the line after the whitespace run,
   * or, when the run reaches the end of the text, whitespace that strips to "".
   */
  function TitleAt(s: string, p: nat): (t: string)
    requires p < |s| && MatchesAt(s, p)
    ensures '\n' !in t
  {
    var q := SpaceRunEnd(s, p + 1);
    if q < |s| then
      var line := s[q..LineEnd(s, q)];
      assert forall k :: 0 <= k < |line| ==> line[k] != '\n';
      StripKeepsOut(line, '\n');
      Strip(line)
    else ""
  }

  /** `re.search`: the capture at the leftmost match from `p` on. */
  function FindTitle(s: string, p: nat): (t: Option<string>)
    requires p <= |s|
    ensures t.Some? ==> '\n' !in t.value
    ensures p < |s| && MatchesAt(s, p) ==> t == Some(TitleAt(s, p))
    ensures t.None? <==> forall i :: p <= i < |s| ==> !MatchesAt(s, i)
    decreases |s| - p
  {
    if p == |s| then None
    else if MatchesAt(s, p) then Some(TitleAt(s, p))
    else FindTitle(s, p + 1)
  }

  /** `_extract_title`: the capture at the first match, else "Untitled"; never spans lines. */
  function ExtractTitle(markdown: string): (title: string)
    ensures '\n' !in title
    ensures (forall i :: 0 <= i < |markdown| ==> !MatchesAt(markdown, i)) ==> title == "Untitled"
    ensures |markdown| > 0 && MatchesAt(markdown, 0) ==> title == TitleAt(markdown, 0)
  {
    FindTitle(markdown, 0).GetOr("Untitled")
  }

  /** A deck opening with the heading line "# t" is titled `t`, stripped. */
  lemma ExtractTitleOfHeading(t: string, rest: string)
    requires t != [] && !IsSpace(t[0])
    requires forall k :: 0 <= k < |t| ==> t[k] != '\n'
    requires rest == [] || rest[0] == '\n'
    ensures ExtractTitle("# " + t + rest) == Strip(t)
  {
    var s := "# " + t + rest;
    assert s[1] == ' ' && s[2] == t[0];
    assert SpaceRunEnd(s, 2) == 2;
    var e := LineEnd(s, 2);
    assert 2 + |t| == |s| || s[2 + |t|] == '\n';
    assert forall k :: 2 <= k < 2 + |t| ==> s[k] == t[k - 2];
    assert e == 2 + |t|;
    assert s[2..e] == t;
    assert MatchesAt(s, 0);
    assert TitleAt(s, 0) == Strip(t);
  }

  /** The pattern's `\s+` crosses a line break: a bare "#" line takes its title from the next line. */
  lemma ExtractTitleAcrossLines()
    ensures ExtractTitle("#\nIntro") == "Intro"
  {
    var s := "#\nIntro";
    assert SpaceRunEnd(s, 1) == 2;
    assert LineEnd(s, 2) == 7;
    assert s[2..7] == "Intro";
    assert Strip("Intro") == "Intro";
    assert MatchesAt(s, 0);
    assert TitleAt(s, 0) == "Intro";
  }
}
