/**
 * SlideGenerator (src/scripts/generate_slides.py): the Marp markdown of a deck, the
 * integer quality validator, the choice between PDF-rendered and generated slide
 * images, and the status of a run.
 */
module Slides {
  import opened Wrappers
  import opened Text

  /** A slide as the structure step returns it; a missing key is None. */
  datatype SlideSpec = SlideSpec(kind: Option<string>, heading: Option<string>, subheading: Option<string>,
                                 points: Option<seq<string>>)

  // ----- the Marp markdown -----

  /** The colours of a TOPIC_COLORS entry. */
  datatype TopicColors = TopicColors(primary: string, secondary: string, bg: string, bgSecondary: string)

  /** The colour scheme of the topic, falling back to the AI-tools scheme for an unknown topic. */
  function ColorsFor(topic: string): TopicColors {
    if topic == "psychology" then TopicColors("#00b4d8", "#90e0ef", "#1a1a2e", "#16213e")
    else if topic == "education" then TopicColors("#10b981", "#6ee7b7", "#1a1a2e", "#0d1f22")
    else if topic == "startup" then TopicColors("#f59e0b", "#fcd34d", "#1a1a2e", "#1f1a0d")
    else if topic == "investment" then TopicColors("#14b8a6", "#5eead4", "#1a1a2e", "#0d1f1d")
    else if topic == "inclusive_education" then TopicColors("#06b6d4", "#67e8f9", "#1a1a2e", "#0d1f22")
    else if topic == "weekly_summary" then TopicColors("#0ea5e9", "#7dd3fc", "#1a1a2e", "#0d1825")
    else TopicColors("#3b82f6", "#93c5fd", "#1a1a2e", "#0d1528")
  }

  /** The front matter and style block in front of the slides. */
  function Header(c: TopicColors): string {
    var body := "theme: default\npaginate: true\nbackgroundColor: " + c.bg
    + "\ncolor: #ffffff\nstyle: |\n  section {\n    font-family: 'Noto Sans JP', 'Hiragino Sans', sans-serif;\n"
    + "    background: linear-gradient(135deg, " + c.bg + " 0%, " + c.bgSecondary + " 100%);\n  }\n"
    + "  h1 {\n    color: " + c.primary + ";\n    font-size: 56px;\n    font-weight: 800;\n"
    + "    text-shadow: 0 2px 10px rgba(0,0,0,0.3);\n  }\n"
    + "  h2 {\n    color: " + c.secondary + ";\n    font-size: 40px;\n    font-weight: 600;\n  }\n"
    + "  ul {\n    font-size: 28px;\n    line-height: 1.8;\n  }\n  li {\n    margin-bottom: 12px;\n  }\n"
    + "  p {\n    font-size: 24px;\n    line-height: 1.6;\n  }\n  .lead h1 {\n    font-size: 64px;\n  }\n---\n\n";
    "---\nmarp: true\n" + body
  }

  const LeadDirective: string := "<!-- _class: lead -->"
  const SlideSeparator: string := "\n---\n\n"

  /** `./images/slide_{i+1:02d}.png`: the image slide `i` (from 0) refers to. */
  function ImageRef(i: nat): string {
    "./images/slide_" + Pad2(i + 1) + ".png"
  }

  /** A Markdown image: `![alt](ref)`. */
  function ImageTag(alt: string, ref: string): string {
    "![" + alt + "](" + ref + ")"
  }

  /** The image directive of a slide: fixed for title and ending slides, alternating on content slides. */
  function ImagePosition(kind: string, i: nat): (pos: string)
    ensures kind != "title" && kind != "ending" ==> (pos == "bg left:40%" <==> i % 2 == 0)
    ensures kind != "title" && kind != "ending" ==> (pos == "bg right:40%" <==> i % 2 == 1)
  {
    if kind == "title" then "bg right:45% contain"
    else if kind == "ending" then "bg opacity:0.4"
    else if i % 2 == 0 then "bg left:40%" else "bg right:40%"
  }

  /** The bullet lines of a content slide: the first five points, each as "- p". */
  function PointLines(points: seq<string>): (ls: seq<string>)
    ensures |ls| == Min(|points|, 5)
    ensures forall k :: 0 <= k < |ls| ==> ls[k] == "- " + points[k]
  {
    seq(Min(|points|, 5), k requires 0 <= k < Min(|points|, 5) => "- " + points[k])
  }

  /** The kind a slide is drawn as: its "type", "content" when missing. */
  function KindOf(s: SlideSpec): string {
    s.kind.GetOr("content")
  }

  /**
   * The markdown of slide `i`: a lead title slide with the author and date, a lead
   * ending slide, or a content slide with its subheading only when non-empty.
   */
  function SlideMarkdown(s: SlideSpec, i: nat, author: string, date: string): string {
    var (head, pre, tag, post) := SlideParts(s, i, author, date);
    head + pre + tag + post
  }

  /** The pieces of a slide's markdown: the opening line, the text up to the image, the image, the rest. */
  function SlideParts(s: SlideSpec, i: nat, author: string, date: string): (string, string, string, string) {
    var kind := KindOf(s);
    var heading := s.heading.GetOr("");
    var subheading := s.subheading.GetOr("");
    var tag := ImageTag(ImagePosition(kind, i), ImageRef(i));
    var (head, pre, post) :=
      if kind == "title" then
        (LeadDirective, "\n\n# " + heading + "\n\n## " + subheading + "\n\n", "\n\n**" + author + "** | " + date + "\n")
      else if kind == "ending" then
        (LeadDirective, "\n\n# " + heading + "\n\n" + subheading + "\n\n", "\n\n**ブログで詳しく読む**\n")
      else if subheading != "" then
        ("# " + heading, "\n\n## " + subheading + "\n\n", "\n\n" + Join(PointLines(s.points.GetOr([])), "\n") + "\n")
      else
        ("# " + heading, "\n\n", "\n\n" + Join(PointLines(s.points.GetOr([])), "\n") + "\n");
    (head, pre, tag, post)
  }

  /**
   * A title or ending slide opens with the lead directive, a content slide with its
   * heading, and every slide shows its image.
   */
  lemma SlideMarkdownShape(s: SlideSpec, i: nat, author: string, date: string)
    ensures var r := SlideMarkdown(s, i, author, date);
      Contains(r, ImageTag(ImagePosition(KindOf(s), i), ImageRef(i)))
      && (KindOf(s) == "title" || KindOf(s) == "ending" ==> StartsWith(r, LeadDirective))
      && (KindOf(s) != "title" && KindOf(s) != "ending" ==> StartsWith(r, "# " + s.heading.GetOr("")))
  {
    var (head, pre, tag, post) := SlideParts(s, i, author, date);
    ContainsMiddle(head + pre, tag, post);
    PrefixStarts(head, pre + tag + post);
    assert head + pre + tag + post == head + (pre + tag + post);
  }

  /** A text starts with any of its prefixes. */
  lemma PrefixStarts(head: string, rest: string)
    ensures StartsWith(head + rest, head)
  {
    assert (head + rest)[..|head|] == head;
  }

  /** The chunk of each slide, in slide order. */
  function DeckChunks(slides: seq<SlideSpec>, author: string, date: string): (chunks: seq<string>)
    ensures |chunks| == |slides|
    ensures forall i :: 0 <= i < |slides| ==> chunks[i] == SlideMarkdown(slides[i], i, author, date)
  {
    seq(|slides|, i requires 0 <= i < |slides| => SlideMarkdown(slides[i], i, author, date))
  }

  lemma DeckChunksSnoc(slides: seq<SlideSpec>, i: nat, author: string, date: string)
    requires i < |slides|
    ensures DeckChunks(slides[..i + 1], author, date) == DeckChunks(slides[..i], author, date) + [SlideMarkdown(slides[i], i, author, date)]
  {
    var a, b := DeckChunks(slides[..i + 1], author, date), DeckChunks(slides[..i], author, date);
    var c := b + [SlideMarkdown(slides[i], i, author, date)];
    forall j | 0 <= j < i + 1
      ensures a[j] == c[j]
    {
      assert slides[..i + 1][j] == slides[j];
    }
  }

  /** The slide loop of `_generate_marp_markdown`: one chunk per slide, in order. */
  method SlideChunks(slides: seq<SlideSpec>, author: string, date: string) returns (chunks: seq<string>)
    ensures chunks == DeckChunks(slides, author, date)
  {
    chunks := [];
    for i := 0 to |slides|
      invariant chunks == DeckChunks(slides[..i], author, date)
    {
      DeckChunksSnoc(slides, i, author, date);
      chunks := chunks + [SlideMarkdown(slides[i], i, author, date)];
    }
    assert slides[..|slides|] == slides;
  }

  /**
   * `_generate_marp_markdown`: the header of the topic's colours, then the chunks
   * joined by "\n---\n\n".
   */
  method MarpMarkdown(slides: seq<SlideSpec>, topic: string, author: string, date: string) returns (markdown: string)
    ensures markdown == Header(ColorsFor(topic)) + Join(DeckChunks(slides, author, date), SlideSeparator)
  {
    var chunks := SlideChunks(slides, author, date);
    markdown := Header(ColorsFor(topic)) + Join(chunks, SlideSeparator);
  }

  /** Every slide's image, at its position, appears in the deck's markdown. */
  lemma DeckReferencesEveryImage(slides: seq<SlideSpec>, topic: string, author: string, date: string, i: nat)
    requires i < |slides|
    ensures Contains(Header(ColorsFor(topic)) + Join(DeckChunks(slides, author, date), SlideSeparator),
                     ImageTag(ImagePosition(KindOf(slides[i]), i), ImageRef(i)))
  {
    var chunks := DeckChunks(slides, author, date);
    var tag := ImageTag(ImagePosition(KindOf(slides[i]), i), ImageRef(i));
    SlideMarkdownShape(slides[i], i, author, date);
    JoinContains(chunks, SlideSeparator, i, tag);
    ContainsPrepend(Header(ColorsFor(topic)), Join(chunks, SlideSeparator), tag);
  }

  // ----- the validator -----

  const SmallImageBytes: int := 10 * 1024

  /** The heading followed by the points joined with spaces: the text whose length is checked. */
  function SlideText(s: SlideSpec): string {
    s.heading.GetOr("") + Join(s.points.GetOr([]), " ")
  }

  function TextHeavy(s: SlideSpec): bool { |SlideText(s)| > 200 }
  function TooManyPoints(s: SlideSpec): bool { |s.points.GetOr([])| > 5 }

  /** The deduction for the number of slides: 20 below 10 slides, 10 above 15. */
  function CountPenalty(n: nat): (p: int)
    ensures p == 0 <==> 10 <= n <= 15
  {
    if n < 10 then 20 else if n > 15 then 10 else 0
  }

  function TooFewIssue(n: nat): string { "スライド枚数不足: " + NatToString(n) + "枚（最低10枚必要）" }
  function TooManyIssue(n: nat): string { "スライド枚数過多: " + NatToString(n) + "枚（最大15枚）" }

  function CountIssues(n: nat): seq<string> {
    if n < 10 then [TooFewIssue(n)] else if n > 15 then [TooManyIssue(n)] else []
  }

  /** How many slides lack an image: `len(slides) - len(image_paths)` when positive. */
  function Missing(slides: nat, images: nat): nat {
    if images < slides then slides - images else 0
  }

  function MissingIssue(missing: nat): string { "画像不足: " + NatToString(missing) + "枚の画像がありません" }

  function MissingIssues(slides: nat, images: nat): seq<string> {
    if images < slides then [MissingIssue(slides - images)] else []
  }

  /** The deduction for one slide: 3 for more than 200 characters, 2 for more than 5 points. */
  function SlidePenalty(s: SlideSpec): nat {
    (if TextHeavy(s) then 3 else 0) + (if TooManyPoints(s) then 2 else 0)
  }

  function TextHeavyIssue(i: nat, length: nat): string {
    "スライド" + NatToString(i + 1) + ": テキスト過多 (" + NatToString(length) + "文字)"
  }

  function PointsIssue(i: nat, count: nat): string {
    "スライド" + NatToString(i + 1) + ": ポイント過多 (" + NatToString(count) + "項目)"
  }

  function SlideIssues(s: SlideSpec, i: nat): seq<string> {
    (if TextHeavy(s) then [TextHeavyIssue(i, |SlideText(s)|)] else [])
    + (if TooManyPoints(s) then [PointsIssue(i, |s.points.GetOr([])|)] else [])
  }

  /** The per-slide deductions over all slides. */
  function TextPenalty(slides: seq<SlideSpec>): nat
    decreases |slides|
  {
    if slides == [] then 0 else TextPenalty(slides[..|slides| - 1]) + SlidePenalty(slides[|slides| - 1])
  }

  function TextIssues(slides: seq<SlideSpec>): seq<string>
    decreases |slides|
  {
    if slides == [] then [] else TextIssues(slides[..|slides| - 1]) + SlideIssues(slides[|slides| - 1], |slides| - 1)
  }

  /** The first slide's "type" must be "title" (a missing type does not count as one). */
  predicate FirstNotTitle(slides: seq<SlideSpec>) {
    slides != [] && slides[0].kind.GetOr("") != "title"
  }

  function TitlePenalty(slides: seq<SlideSpec>): int { if FirstNotTitle(slides) then 10 else 0 }

  function TitleIssues(slides: seq<SlideSpec>): seq<string> {
    if FirstNotTitle(slides) then ["最初のスライドがタイトルではありません"] else []
  }

  /** An image under 10 KiB; a path missing from `sizes` is one whose `stat` raises, which is skipped. */
  predicate SmallImage(path: string, sizes: map<string, int>) {
    path in sizes && sizes[path] < SmallImageBytes
  }

  function SmallImageIssue(path: string, size: int): string {
    "画像サイズ不足: " + BaseName(path) + " (" + IntToString(size) + " bytes)"
  }

  /** 5 for each image under 10 KiB whose size can be read. */
  function SizePenalty(paths: seq<string>, sizes: map<string, int>): nat
    decreases |paths|
  {
    if paths == [] then 0
    else SizePenalty(paths[..|paths| - 1], sizes) + (if SmallImage(paths[|paths| - 1], sizes) then 5 else 0)
  }

  function SizeIssues(paths: seq<string>, sizes: map<string, int>): seq<string>
    decreases |paths|
  {
    if paths == [] then []
    else
      var p := paths[|paths| - 1];
      SizeIssues(paths[..|paths| - 1], sizes)
      + (if SmallImage(p, sizes) then [SmallImageIssue(p, sizes[p])] else [])
  }

  /** The score before clamping: 100 less every deduction. */
  function RawScore(slides: seq<SlideSpec>, paths: seq<string>, sizes: map<string, int>): int {
    100 - CountPenalty(|slides|) - 5 * Missing(|slides|, |paths|) - TextPenalty(slides)
    - TitlePenalty(slides) - SizePenalty(paths, sizes)
  }

  /** The issues in the order the validator finds them. */
  function Issues(slides: seq<SlideSpec>, paths: seq<string>, sizes: map<string, int>): seq<string> {
    CountIssues(|slides|) + MissingIssues(|slides|, |paths|) + TextIssues(slides) + TitleIssues(slides) + SizeIssues(paths, sizes)
  }

  /** The dict `_validate_slides` returns. */
  datatype Validation = Validation(score: int, passed: bool, issues: seq<string>)

  lemma TextStep(slides: seq<SlideSpec>, i: nat)
    requires i < |slides|
    ensures TextPenalty(slides[..i + 1]) == TextPenalty(slides[..i]) + SlidePenalty(slides[i])
    ensures TextIssues(slides[..i + 1]) == TextIssues(slides[..i]) + SlideIssues(slides[i], i)
  {
    assert slides[..i + 1][..i] == slides[..i];
  }

  /** The per-slide loop of the validator: 3 off for a long text, 2 off for too many points. */
  method CheckTexts(slides: seq<SlideSpec>, score0: int, issues0: seq<string>) returns (score: int, issues: seq<string>)
    ensures score == score0 - TextPenalty(slides)
    ensures issues == issues0 + TextIssues(slides)
  {
    score := score0;
    var found: seq<string> := [];
    for i := 0 to |slides|
      invariant score == score0 - TextPenalty(slides[..i])
      invariant found == TextIssues(slides[..i])
    {
      TextStep(slides, i);
      var s := slides[i];
      var text := SlideText(s);
      var long: seq<string> := [];
      if |text| > 200 {
        score := score - 3;
        long := [TextHeavyIssue(i, |text|)];
      }
      var points := s.points.GetOr([]);
      var crowded: seq<string> := [];
      if |points| > 5 {
        score := score - 2;
        crowded := [PointsIssue(i, |points|)];
      }
      found := found + (long + crowded);
    }
    assert slides[..|slides|] == slides;
    issues := issues0 + found;
  }

  lemma SizeStep(paths: seq<string>, i: nat, sizes: map<string, int>)
    requires i < |paths|
    ensures SizePenalty(paths[..i + 1], sizes) == SizePenalty(paths[..i], sizes) + (if SmallImage(paths[i], sizes) then 5 else 0)
    ensures SizeIssues(paths[..i + 1], sizes) == SizeIssues(paths[..i], sizes) + (if SmallImage(paths[i], sizes) then [SmallImageIssue(paths[i], sizes[paths[i]])] else [])
  {
    assert paths[..i + 1][..i] == paths[..i];
  }

  /** The image-size loop of the validator. */
  method CheckSizes(paths: seq<string>, sizes: map<string, int>, score0: int, issues0: seq<string>) returns (score: int, issues: seq<string>)
    ensures score == score0 - SizePenalty(paths, sizes)
    ensures issues == issues0 + SizeIssues(paths, sizes)
  {
    score := score0;
    var found: seq<string> := [];
    for i := 0 to |paths|
      invariant score == score0 - SizePenalty(paths[..i], sizes)
      invariant found == SizeIssues(paths[..i], sizes)
    {
      SizeStep(paths, i, sizes);
      var path := paths[i];
      if path in sizes && sizes[path] < SmallImageBytes {
        score := score - 5;
        found := found + [SmallImageIssue(path, sizes[path])];
      }
    }
    assert paths[..|paths|] == paths;
    issues := issues0 + found;
  }

  /** The slide-count and missing-image checks, starting from 100. */
  method CheckCounts(slideCount: nat, imageCount: nat) returns (score: int, issues: seq<string>)
    ensures score == 100 - CountPenalty(slideCount) - 5 * Missing(slideCount, imageCount)
    ensures issues == CountIssues(slideCount) + MissingIssues(slideCount, imageCount)
  {
    score := 100;
    issues := [];
    if slideCount < 10 {
      score := score - 20;
      issues := issues + [TooFewIssue(slideCount)];
    } else if slideCount > 15 {
      score := score - 10;
      issues := issues + [TooManyIssue(slideCount)];
    }
    if imageCount < slideCount {
      var missing := slideCount - imageCount;
      score := score - missing * 5;
      issues := issues + [MissingIssue(missing)];
    }
  }

  /** The check that the deck opens with a title slide. */
  method CheckTitle(slides: seq<SlideSpec>, score0: int, issues0: seq<string>) returns (score: int, issues: seq<string>)
    ensures score == score0 - TitlePenalty(slides)
    ensures issues == issues0 + TitleIssues(slides)
  {
    score, issues := score0, issues0;
    if slides != [] && slides[0].kind.GetOr("") != "title" {
      score := score - 10;
      issues := issues + ["最初のスライドがタイトルではありません"];
    }
  }

  /**
   * `_validate_slides`: the reported score is clamped at 0 while `passed` reads the
   * unclamped one, so a passing deck always reports at least 95.
   */
  method ValidateSlides(slides: seq<SlideSpec>, paths: seq<string>, sizes: map<string, int>) returns (v: Validation)
    ensures v.score == Max(0, RawScore(slides, paths, sizes))
    ensures v.passed <==> RawScore(slides, paths, sizes) >= 95
    ensures v.passed ==> v.score >= 95
    ensures 0 <= v.score <= 100
    ensures v.issues == Issues(slides, paths, sizes)
  {
    var score, issues := CheckCounts(|slides|, |paths|);
    score, issues := CheckTexts(slides, score, issues);
    score, issues := CheckTitle(slides, score, issues);
    score, issues := CheckSizes(paths, sizes, score, issues);
    v := Validation(Max(0, score), score >= 95, issues);
  }

  lemma {:induction false} TextPenaltyZero(slides: seq<SlideSpec>)
    ensures TextPenalty(slides) == 0 <==> TextIssues(slides) == []
    ensures TextPenalty(slides) == 0 <==> forall j :: 0 <= j < |slides| ==> !TextHeavy(slides[j]) && !TooManyPoints(slides[j])
    decreases |slides|
  {
    if slides != [] {
      var init := slides[..|slides| - 1];
      TextPenaltyZero(init);
      assert forall j :: 0 <= j < |init| ==> init[j] == slides[j];
    }
  }

  lemma {:induction false} SizePenaltyZero(paths: seq<string>, sizes: map<string, int>)
    ensures SizePenalty(paths, sizes) == 0 <==> SizeIssues(paths, sizes) == []
    ensures SizePenalty(paths, sizes) == 0 <==> forall j :: 0 <= j < |paths| ==> !SmallImage(paths[j], sizes)
    decreases |paths|
  {
    if paths != [] {
      var init := paths[..|paths| - 1];
      SizePenaltyZero(init, sizes);
      assert forall j :: 0 <= j < |init| ==> init[j] == paths[j];
    }
  }

  /** Every deduction is reported: the issue list is empty exactly when the score is the full 100. */
  lemma NoIssuesIffFullScore(slides: seq<SlideSpec>, paths: seq<string>, sizes: map<string, int>)
    ensures Issues(slides, paths, sizes) == [] <==> RawScore(slides, paths, sizes) == 100
  {
    TextPenaltyZero(slides);
    SizePenaltyZero(paths, sizes);
  }

  /** The number of images under 10 KiB whose size can be read. */
  function SmallCount(paths: seq<string>, sizes: map<string, int>): (n: nat)
    ensures SizePenalty(paths, sizes) == 5 * n
    decreases |paths|
  {
    if paths == [] then 0
    else SmallCount(paths[..|paths| - 1], sizes) + (if SmallImage(paths[|paths| - 1], sizes) then 1 else 0)
  }

  /**
   * A deck that passes has 10 to 15 slides, opens with a title slide, lacks at most
   * one image, has at most one small image and loses at most 5 points on its texts.
   */
  lemma PassedDeckShape(slides: seq<SlideSpec>, paths: seq<string>, sizes: map<string, int>)
    requires RawScore(slides, paths, sizes) >= 95
    ensures 10 <= |slides| <= 15
    ensures slides[0].kind == Some("title")
    ensures Missing(|slides|, |paths|) <= 1 && SmallCount(paths, sizes) <= 1 && TextPenalty(slides) <= 5
  {
  }

  /** A deck with no fault at all scores 100 and passes. */
  lemma CleanDeckPasses(slides: seq<SlideSpec>, paths: seq<string>, sizes: map<string, int>)
    requires 10 <= |slides| <= 15 && |paths| >= |slides| && slides[0].kind == Some("title")
    requires forall j :: 0 <= j < |slides| ==> !TextHeavy(slides[j]) && !TooManyPoints(slides[j])
    requires forall j :: 0 <= j < |paths| ==> !SmallImage(paths[j], sizes)
    ensures RawScore(slides, paths, sizes) == 100
  {
    TextPenaltyZero(slides);
    SizePenaltyZero(paths, sizes);
  }

  // ----- the run -----

  /**
   * The images handed on as `slide_images`: the PDF pages only when Marp CLI is
   * there, the PDF export succeeded and pdf2image or poppler is there; otherwise the
   * generated images.
   */
  function SlideImages(marpCli: bool, pdfOk: bool, converter: bool, pdfPages: seq<string>, generated: seq<string>): (r: seq<string>)
    ensures marpCli && pdfOk && converter ==> r == pdfPages
    ensures !(marpCli && pdfOk && converter) ==> r == generated
  {
    if marpCli && pdfOk && converter then pdfPages else generated
  }

  /** The status of a run that did not raise: "success" iff the validation passed, "warning" otherwise. */
  function RunStatus(v: Validation): (s: string)
    ensures s == "success" <==> v.passed
    ensures s == "warning" <==> !v.passed
  {
    if v.passed then "success" else "warning"
  }

  /** The paths of the image steps that returned a non-empty path, in slide order. */
  function Successful(results: seq<Option<string>>): (paths: seq<string>)
    ensures |paths| <= |results|
    ensures forall k :: 0 <= k < |paths| ==> paths[k] != ""
  {
    if results == [] then []
    else
      var last := results[|results| - 1];
      Successful(results[..|results| - 1]) + (if last.Some? && last.value != "" then [last.value] else [])
  }

  /** A path is kept exactly when some step returned it and it is not empty. */
  lemma {:induction false} SuccessfulHolds(results: seq<Option<string>>, p: string)
    ensures p in Successful(results) <==> p != "" && Some(p) in results
  {
    if results != [] {
      var front := results[..|results| - 1];
      SuccessfulHolds(front, p);
      assert results == front + [results[|results| - 1]];
    }
  }

  /** When every step succeeds, every path is kept, in order. */
  lemma {:induction false} SuccessfulAll(results: seq<Option<string>>)
    requires forall k :: 0 <= k < |results| ==> results[k].Some? && results[k].value != ""
    ensures Successful(results) == seq(|results|, k requires 0 <= k < |results| => results[k].value)
  {
    if results != [] {
      var front := results[..|results| - 1];
      SuccessfulAll(front);
    }
  }

  /** The generated images kept: the steps that returned a non-empty path, in slide order. */
  method CollectGenerated(results: seq<Option<string>>) returns (generated: seq<string>)
    ensures generated == Successful(results)
    ensures |generated| <= |results|
    ensures forall k :: 0 <= k < |generated| ==> generated[k] != ""
    ensures (forall k :: 0 <= k < |results| ==> results[k].Some? && results[k].value != "") ==> generated == seq(|results|, k requires 0 <= k < |results| => results[k].value)
  {
    generated := [];
    for i := 0 to |results|
      invariant generated == Successful(results[..i])
    {
      assert results[..i + 1][..i] == results[..i];
      if results[i].Some? && results[i].value != "" {
        generated := generated + [results[i].value];
      }
    }
    assert results[..|results|] == results;
    if forall k :: 0 <= k < |results| ==> results[k].Some? && results[k].value != "" {
      SuccessfulAll(results);
    }
  }
}
