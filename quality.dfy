/**
 * QualityEvaluator (src/scripts/quality_evaluator.py): a weighted rubric that
 * scores the blog article out of 50 and the slides and the video out of 30 each,
 * with partial credit per criterion, a forced fail for short articles, and an
 * overall percentage rounded to one decimal that passes at 97.0.
 *
 * Scores are exact reals. Facts the evaluator reads from disk (image sizes, whether
 * the markdown, PDF or video exists, the markdown text) are inputs.
 */
module Quality {
  import opened Wrappers
  import opened Text

  /** One criterion's contribution: points earned plus the issues and recommendations it adds. */
  datatype Criterion = Criterion(points: real, issues: seq<string>, recs: seq<string>)

  /** QualityResult. */
  datatype Evaluation = Evaluation(
    category: string, score: real, maxScore: real, passed: bool,
    issues: seq<string>, recs: seq<string>)

  /** PASS_THRESHOLD = 0.97 */
  const PassThreshold: real := 0.97

  // ===== article =====

  /** The article fields the evaluator reads; absent keys are options. */
  datatype Article = Article(content: string, wordCount: Option<int>, sourceCount: nat, seoScore: Option<int>)

  const FullLengthRec: string := "記事の内容を大幅に拡充してください（目標20,000文字以上）"

  /** Length: 10 from 20000 characters, 7 from 15000, 4 from 10000, 2 from 5000, else 0. */
  function LengthCriterion(wc: int): (c: Criterion)
    ensures 0.0 <= c.points <= 10.0
    ensures c.points == (if wc >= 20000 then 10.0 else if wc >= 15000 then 7.0
      else if wc >= 10000 then 4.0 else if wc >= 5000 then 2.0 else 0.0)
    ensures |c.issues| == (if wc >= 20000 then 0 else 1)
  {
    if wc >= 20000 then Criterion(10.0, [], [])
    else if wc >= 15000 then
      Criterion(7.0, ["文字数が目標未達: " + IntToString(wc) + "文字（目標20,000+）"], [])
    else if wc >= 10000 then
      Criterion(4.0, ["[重要] 文字数が不足: " + IntToString(wc) + "文字（最低15,000+必須）"],
        ["記事の内容を大幅に拡充してください（最低15,000文字以上）"])
    else if wc >= 5000 then
      Criterion(2.0, ["[致命的] 文字数が大幅に不足: " + IntToString(wc) + "文字"], [FullLengthRec])
    else
      Criterion(0.0, ["[致命的] 文字数が著しく不足: " + IntToString(wc) + "文字"], [FullLengthRec])
  }

  predicate HasIntro(content: string) {
    Contains(content, "はじめに") || Contains(content, "導入") || StartsWith(content, "#")
  }

  predicate HasConclusion(content: string) {
    Contains(content, "まとめ") || Contains(content, "結論") || Contains(content, "おわりに")
  }

  /** Structure: "## " sections with an introduction and a conclusion. */
  function StructureCriterion(content: string): (c: Criterion)
    ensures 0.0 <= c.points <= 10.0
    ensures c.points == 10.0 <==> HasIntro(content) && HasConclusion(content) && Count(content, "## ") >= 12
    ensures c.points == 0.0 <==> Count(content, "## ") < 5
  {
    var n := Count(content, "## ");
    if HasIntro(content) && n >= 12 && HasConclusion(content) then Criterion(10.0, [], [])
    else if HasIntro(content) && n >= 8 && HasConclusion(content) then
      Criterion(7.0, ["セクション数が目標未達: " + NatToString(n) + "個（目標12+）"], [])
    else if n >= 5 then Criterion(5.0, ["記事の構成が不完全: " + NatToString(n) + "セクション"], [])
    else
      Criterion(0.0, ["記事の構成が不十分: " + NatToString(n) + "セクション"],
        ["15セクション以上の充実した構成にしてください"])
  }

  /** Sources: 8 from ten sources, 70% from seven, 50% from five, else 0. */
  function SourcesCriterion(n: nat): (c: Criterion)
    ensures 0.0 <= c.points <= 8.0
    ensures c.points == (if n >= 10 then 8.0 else if n >= 7 then 5.6 else if n >= 5 then 4.0 else 0.0)
  {
    if n >= 10 then Criterion(8.0, [], [])
    else if n >= 7 then Criterion(5.6, ["情報ソースがやや少ない: " + NatToString(n) + "件（推奨10+）"], [])
    else if n >= 5 then Criterion(4.0, ["情報ソースが少ない: " + NatToString(n) + "件（推奨10+）"], [])
    else
      Criterion(0.0, ["情報ソースが不足: " + NatToString(n) + "件"], ["信頼できる情報ソースを10個以上追加してください"])
  }

  /** SEO: 6 from 85, 70% from 70, 30% below. */
  function SeoCriterion(seo: int): (c: Criterion)
    ensures 1.8 <= c.points <= 6.0
    ensures c.points == (if seo >= 85 then 6.0 else if seo >= 70 then 4.2 else 1.8)
  {
    if seo >= 85 then Criterion(6.0, [], [])
    else if seo >= 70 then Criterion(4.2, ["SEOスコアが目標未達: " + IntToString(seo) + "（目標85+）"], [])
    else Criterion(1.8, ["SEOスコアが低い: " + IntToString(seo)], ["キーワード最適化とメタ情報を改善してください"])
  }

  /** `len(content) / max(content.count("\n\n"), 1) < 500`. */
  predicate ShortParagraphs(content: string) {
    (|content| as real) / (Max(Count(content, "\n\n"), 1) as real) < 500.0
  }

  predicate HasLists(content: string) {
    Contains(content, "- ") || Contains(content, "* ") || Contains(content, "1. ")
  }

  /** The readability fraction: 0.4 for short paragraphs, 0.3 for lists, 0.3 for headings. */
  function ReadabilityFraction(content: string): (r: real)
    ensures 0.0 <= r <= 1.0
  {
    (if ShortParagraphs(content) then 0.4 else 0.0)
    + (if HasLists(content) then 0.3 else 0.0)
    + (if Contains(content, "## ") then 0.3 else 0.0)
  }

  function ReadabilityCriterion(content: string): (c: Criterion)
    ensures 0.0 <= c.points <= 8.0 && c.points == 8.0 * ReadabilityFraction(content)
    ensures c.issues == [] <==> ReadabilityFraction(content) >= 0.7
  {
    var r := ReadabilityFraction(content);
    if r < 0.7 then Criterion(8.0 * r, ["読みやすさに改善の余地あり"], ["適切な見出しと箇条書きを使用してください"])
    else Criterion(8.0 * r, [], [])
  }

  /** The character class of the evaluator's emoji pattern. */
  predicate IsRubricEmoji(ch: char) {
    ('\U{1F600}' <= ch <= '\U{1F64F}') || ('\U{1F300}' <= ch <= '\U{1F5FF}')
    || ('\U{1F680}' <= ch <= '\U{1F6FF}') || ('\U{1F1E0}' <= ch <= '\U{1F1FF}')
  }

  predicate HasEmoji(content: string) {
    exists k :: 0 <= k < |content| && IsRubricEmoji(content[k])
  }

  function EmojiCriterion(content: string): (c: Criterion)
    ensures c.points == (if HasEmoji(content) then 0.0 else 4.0)
  {
    if !HasEmoji(content) then Criterion(4.0, [], [])
    else Criterion(0.0, ["絵文字が使用されています（禁止）"], ["全ての絵文字を削除してください"])
  }

  /** How many of the four engagement checks (question, story, surprise, action) hold. */
  function EngagementHits(content: string): (n: nat)
    ensures n <= 4
  {
    (if Contains(content, "?") || Contains(content, "でしょうか") then 1 else 0)
    + (if Contains(content, "事例") || Contains(content, "ケース") || Contains(content, "ストーリー") then 1 else 0)
    + (if Contains(content, "意外") || Contains(content, "知っていましたか") || Contains(content, "実は") then 1 else 0)
    + (if Contains(content, "アクション") || Contains(content, "実践") || Contains(content, "今日から") then 1 else 0)
  }

  function EngagementCriterion(content: string): (c: Criterion)
    ensures 0.0 <= c.points <= 4.0 && c.points == EngagementHits(content) as real
    ensures c.issues == [] <==> EngagementHits(content) >= 3
  {
    var e := 0.25 * EngagementHits(content) as real;
    if e < 0.75 then
      Criterion(4.0 * e, ["読者エンゲージメント要素が不足しています"],
        ["読者への問いかけ、驚きの事実、ストーリー要素を追加してください"])
    else Criterion(4.0 * e, [], [])
  }

  /** `word_count` defaults to the content length. */
  function WordCount(a: Article): int {
    a.wordCount.GetOr(|a.content|)
  }

  /** The seven article criteria in the order they are checked. */
  function ArticleCriteria(a: Article): (cs: seq<Criterion>)
    ensures |cs| == 7
  {
    [LengthCriterion(WordCount(a)), StructureCriterion(a.content), SourcesCriterion(a.sourceCount),
     SeoCriterion(a.seoScore.GetOr(70)), ReadabilityCriterion(a.content), EmojiCriterion(a.content),
     EngagementCriterion(a.content)]
  }

  /** The issues of the article criteria, in the order they are checked. */
  function ArticleIssues(a: Article): seq<string> {
    var cs := ArticleCriteria(a);
    cs[0].issues + cs[1].issues + cs[2].issues + cs[3].issues + cs[4].issues + cs[5].issues + cs[6].issues
  }

  function ArticleRecs(a: Article): seq<string> {
    var cs := ArticleCriteria(a);
    cs[0].recs + cs[1].recs + cs[2].recs + cs[3].recs + cs[4].recs + cs[5].recs + cs[6].recs
  }

  /** The weighted score before the forced-fail rule: at most the 50 points of the weights. */
  function ArticleScore(a: Article): (s: real)
    ensures 1.8 <= s <= 50.0
  {
    var cs := ArticleCriteria(a);
    cs[0].points + cs[1].points + cs[2].points + cs[3].points + cs[4].points + cs[5].points + cs[6].points
  }

  /** Under 15000 characters the length criterion earns at most 4, so the score stays at or below 44. */
  lemma ShortArticleScoreBound(a: Article)
    requires WordCount(a) < 15000
    ensures ArticleScore(a) <= 44.0
  {
  }

  /**
   * The "[強制不合格]" issue is inserted only when the article is short and the score
   * alone would pass; a short article scores at most 44 < 48.5, so it never is.
   */
  lemma ForcedFailNeverInserted(a: Article)
    ensures !(WordCount(a) < 15000 && ArticleScore(a) / 50.0 >= PassThreshold)
  {
    if WordCount(a) < 15000 {
      ShortArticleScoreBound(a);
    }
  }

  /** The QualityResult of evaluate_article, as a value. */
  function ArticleResult(a: Article): (r: Evaluation)
    ensures r.maxScore == 50.0 && 0.0 <= r.score <= 50.0
  {
    var score := ArticleScore(a);
    Evaluation("article", score, 50.0, score / 50.0 >= PassThreshold && WordCount(a) >= 15000,
      ArticleIssues(a), ArticleRecs(a))
  }

  /** The criteria of evaluate_article in the order it checks them, summed and concatenated. */
  method ScoreArticle(a: Article) returns (score: real, issues: seq<string>, recs: seq<string>)
    ensures score == ArticleScore(a) && issues == ArticleIssues(a) && recs == ArticleRecs(a)
  {
    var content := a.content;
    ghost var cs := ArticleCriteria(a);
    var length := LengthCriterion(a.wordCount.GetOr(|content|));
    score, issues, recs := length.points, length.issues, length.recs;
    var structure := StructureCriterion(content);
    score, issues, recs := score + structure.points, issues + structure.issues, recs + structure.recs;
    var sources := SourcesCriterion(a.sourceCount);
    score, issues, recs := score + sources.points, issues + sources.issues, recs + sources.recs;
    var seo := SeoCriterion(a.seoScore.GetOr(70));
    score, issues, recs := score + seo.points, issues + seo.issues, recs + seo.recs;
    var readability := ReadabilityCriterion(content);
    score, issues, recs := score + readability.points, issues + readability.issues, recs + readability.recs;
    var emoji := EmojiCriterion(content);
    score, issues, recs := score + emoji.points, issues + emoji.issues, recs + emoji.recs;
    var engagement := EngagementCriterion(content);
    score, issues, recs := score + engagement.points, issues + engagement.issues, recs + engagement.recs;
    assert length == cs[0] && structure == cs[1] && sources == cs[2] && seo == cs[3];
    assert readability == cs[4] && emoji == cs[5] && engagement == cs[6];
  }

  /**
   * evaluate_article: the score is the sum of the criteria, the issues and
   * recommendations theirs in order, and the article passes iff the score reaches
   * 97% of 50 and the text has at least 15000 characters. The "[強制不合格]" entries
   * the source would put first are never added (ForcedFailNeverInserted).
   */
  method EvaluateArticle(a: Article) returns (r: Evaluation)
    ensures r == ArticleResult(a)
    ensures 0.0 <= r.score <= 50.0 && (r.passed <==> r.score >= 48.5 && WordCount(a) >= 15000)
  {
    var critical := a.wordCount.GetOr(|a.content|) < 15000;
    var score, issues, recs := ScoreArticle(a);
    var passed := score / 50.0 >= PassThreshold && !critical;
    ForcedFailNeverInserted(a);
    r := Evaluation("article", score, 50.0, passed, issues, recs);
  }

  // ===== slides =====

  /** A slide dict as the evaluator reads it: `heading`, `points` and `type` may be missing. */
  datatype SlideInfo = SlideInfo(heading: Option<string>, points: Option<seq<string>>, kind: Option<string>)

  /** What `Path(path).stat()` gives for a slide image: its size and name, or an error. */
  datatype ImageStat = ImageStat(name: string, size: Option<int>)

  /**
   * The slides data: the slides, one stat per `slide_images` entry, the markdown text
   * when `markdown_path` is given and exists, and whether `pdf_path` is given and exists.
   */
  datatype SlidesData = SlidesData(
    slides: seq<SlideInfo>, images: seq<ImageStat>, markdown: Option<string>, pdfExists: bool)

  /** The heading followed by the points joined with spaces, the text measured against 100 characters. */
  function SlideText(s: SlideInfo): string {
    s.heading.GetOr("") + Join(s.points.GetOr([]), " ")
  }

  /** Slide count: full 5 for 10..15 slides, 3 for 8..17, else 0. */
  function SlideCountCriterion(n: nat): (c: Criterion)
    ensures c.points == (if 10 <= n <= 15 then 5.0 else if 8 <= n <= 17 then 3.0 else 0.0)
  {
    if 10 <= n <= 15 then Criterion(5.0, [], [])
    else if 8 <= n <= 17 then Criterion(3.0, ["スライド枚数が推奨範囲外: " + NatToString(n) + "枚（推奨10-15枚）"], [])
    else Criterion(0.0, ["スライド枚数が不適切: " + NatToString(n) + "枚"], ["スライド枚数を10-15枚に調整してください"])
  }

  /** The slides among `ss` whose text is at most 100 characters. */
  function TextOkCount(ss: seq<SlideInfo>): (n: nat)
    ensures n <= |ss|
  {
    if ss == [] then 0 else TextOkCount(ss[..|ss| - 1]) + (if |SlideText(ss[|ss| - 1])| <= 100 then 1 else 0)
  }

  /** One issue per over-long slide, numbered from `1`. */
  function TextIssues(ss: seq<SlideInfo>): (issues: seq<string>)
    ensures |issues| == |ss| - TextOkCount(ss)
  {
    if ss == [] then []
    else
      var t := SlideText(ss[|ss| - 1]);
      TextIssues(ss[..|ss| - 1])
      + (if |t| <= 100 then [] else ["スライド" + NatToString(|ss|) + ": テキスト過多（" + NatToString(|t|) + "文字）"])
  }

  /** Image coverage: full 5 when there are as many images as slides, 3.5 from 80%, else 0. */
  function ImagesCriterion(images: nat, slides: nat): (c: Criterion)
    ensures c.points == 5.0 <==> images >= slides
    ensures c.points == 3.5 <==> images < slides && images as real >= slides as real * 0.8
    ensures c.points == 0.0 <==> images as real < slides as real * 0.8
  {
    var ratio := NatToString(images) + "/" + NatToString(slides);
    if images >= slides then Criterion(5.0, [], [])
    else if images as real >= slides as real * 0.8 then
      Criterion(3.5, ["一部のスライドに画像がありません: " + ratio], [])
    else Criterion(0.0, ["画像が大幅に不足: " + ratio], ["全てのスライドに画像を追加してください"])
  }

  predicate HasKind(ss: seq<SlideInfo>, kind: string) {
    exists k :: 0 <= k < |ss| && ss[k].kind == Some(kind)
  }

  function KindCount(ss: seq<SlideInfo>, kind: string): (n: nat)
    ensures n <= |ss|
  {
    if ss == [] then 0 else KindCount(ss[..|ss| - 1], kind) + (if ss[|ss| - 1].kind == Some(kind) then 1 else 0)
  }

  /** Structure: a title, an ending and five content slides earn 5; a title or an ending alone 2.5. */
  function SlideStructureCriterion(ss: seq<SlideInfo>): (c: Criterion)
    ensures c.points == (if HasKind(ss, "title") && HasKind(ss, "ending") && KindCount(ss, "content") >= 5 then 5.0
      else if HasKind(ss, "title") || HasKind(ss, "ending") then 2.5 else 0.0)
  {
    if HasKind(ss, "title") && HasKind(ss, "ending") && KindCount(ss, "content") >= 5 then Criterion(5.0, [], [])
    else if HasKind(ss, "title") || HasKind(ss, "ending") then Criterion(2.5, ["スライド構成が不完全"], [])
    else Criterion(0.0, ["スライド構成が不適切"], ["タイトル→コンテンツ→エンディングの構成を確保してください"])
  }

  /** An image costs 0.1 of the design fraction when it is under 10 KiB or cannot be read. */
  predicate Penalised(im: ImageStat) {
    im.size.None? || im.size.value < 10 * 1024
  }

  function PenaltyCount(images: seq<ImageStat>): (n: nat)
    ensures n <= |images|
  {
    if images == [] then 0 else PenaltyCount(images[..|images| - 1]) + (if Penalised(images[|images| - 1]) then 1 else 0)
  }

  /** One issue per image that is readable but under 10 KiB. */
  function SmallImageIssues(images: seq<ImageStat>): seq<string> {
    if images == [] then []
    else
      var im := images[|images| - 1];
      SmallImageIssues(images[..|images| - 1])
      + (if im.size.Some? && im.size.value < 10 * 1024 then ["画像サイズが小さすぎます: " + im.name] else [])
  }

  /** The design fraction, `1.0 - 0.1 * penalties`, floored at 0 before weighting. */
  function DesignPoints(images: seq<ImageStat>): (p: real)
    ensures 0.0 <= p <= 5.0
    ensures p == 0.0 <==> PenaltyCount(images) >= 10
  {
    var d := 1.0 - 0.1 * PenaltyCount(images) as real;
    5.0 * (if d > 0.0 then d else 0.0)
  }

  /** Marp compatibility: the markdown's "marp: true", else an existing PDF. */
  function MarpCriterion(markdown: Option<string>, pdfExists: bool): (c: Criterion)
    ensures c.points == 5.0 <==> (markdown.Some? && Contains(markdown.value, "marp: true")) || (markdown.None? && pdfExists)
    ensures c.points == 0.0 || c.points == 5.0
  {
    if markdown.Some? then
      if Contains(markdown.value, "marp: true") then Criterion(5.0, [], [])
      else Criterion(0.0, ["Marpフロントマターがありません"], [])
    else if pdfExists then Criterion(5.0, [], [])
    else Criterion(0.0, ["マークダウンまたはPDFが見つかりません"], ["Marp互換のマークダウンを生成してください"])
  }

  function TextRatio(ss: seq<SlideInfo>): (r: real)
    ensures 0.0 <= r <= 1.0
  {
    TextOkCount(ss) as real / Max(|ss|, 1) as real
  }

  /** The slides score: count, text ratio, images, structure, design and Marp, at most 30. */
  function SlidesScore(d: SlidesData): (s: real)
    ensures 0.0 <= s <= 30.0
  {
    SlideCountCriterion(|d.slides|).points + 5.0 * TextRatio(d.slides)
    + ImagesCriterion(|d.images|, |d.slides|).points + SlideStructureCriterion(d.slides).points
    + DesignPoints(d.images) + MarpCriterion(d.markdown, d.pdfExists).points
  }

  function SlidesIssues(d: SlidesData): seq<string> {
    SlideCountCriterion(|d.slides|).issues + TextIssues(d.slides)
    + ImagesCriterion(|d.images|, |d.slides|).issues + SlideStructureCriterion(d.slides).issues
    + SmallImageIssues(d.images) + MarpCriterion(d.markdown, d.pdfExists).issues
  }

  function SlidesRecs(d: SlidesData): seq<string> {
    SlideCountCriterion(|d.slides|).recs
    + (if TextRatio(d.slides) < 0.8 then ["各スライドのテキスト量を100文字以内に抑えてください"] else [])
    + ImagesCriterion(|d.images|, |d.slides|).recs + SlideStructureCriterion(d.slides).recs
    + MarpCriterion(d.markdown, d.pdfExists).recs
  }

  /** The QualityResult of evaluate_slides, as a value. */
  function SlidesResult(d: SlidesData): (r: Evaluation)
    ensures r.maxScore == 30.0 && 0.0 <= r.score <= 30.0
  {
    Evaluation("slides", SlidesScore(d), 30.0, SlidesScore(d) / 30.0 >= PassThreshold, SlidesIssues(d), SlidesRecs(d))
  }

  /** The text loop of evaluate_slides: count the short slides, report the long ones. */
  method CheckSlideTexts(slides: seq<SlideInfo>) returns (okCount: nat, issues: seq<string>)
    ensures okCount == TextOkCount(slides) && issues == TextIssues(slides)
  {
    okCount, issues := 0, [];
    for i := 0 to |slides|
      invariant okCount == TextOkCount(slides[..i]) && issues == TextIssues(slides[..i])
    {
      assert slides[..i + 1][..i] == slides[..i];
      var total := SlideText(slides[i]);
      if |total| <= 100 {
        okCount := okCount + 1;
      } else {
        issues := issues + ["スライド" + NatToString(i + 1) + ": テキスト過多（" + NatToString(|total|) + "文字）"];
      }
    }
    assert slides[..|slides|] == slides;
  }

  /** The design loop of evaluate_slides: 0.1 off per small or unreadable image. */
  method CheckImageSizes(images: seq<ImageStat>) returns (design: real, issues: seq<string>)
    ensures design == 1.0 - 0.1 * PenaltyCount(images) as real && issues == SmallImageIssues(images)
  {
    design, issues := 1.0, [];
    for i := 0 to |images|
      invariant design == 1.0 - 0.1 * PenaltyCount(images[..i]) as real
      invariant issues == SmallImageIssues(images[..i])
    {
      assert images[..i + 1][..i] == images[..i];
      match images[i].size {
        case Some(size) =>
          if size < 10 * 1024 {
            design := design - 0.1;
            issues := issues + ["画像サイズが小さすぎます: " + images[i].name];
          }
        case None =>
          design := design - 0.1;
      }
    }
    assert images[..|images|] == images;
  }

  /** evaluate_slides: score, issues and recommendations as the criteria give them; passes at 29.1 of 30. */
  method EvaluateSlides(d: SlidesData) returns (r: Evaluation)
    ensures r == SlidesResult(d)
    ensures 0.0 <= r.score <= 30.0 && (r.passed <==> r.score >= 29.1)
  {
    var n := |d.slides|;
    var count := SlideCountCriterion(n);
    var score := count.points;
    var issues := count.issues;
    var recs := count.recs;

    var okCount, textIssues := CheckSlideTexts(d.slides);
    issues := issues + textIssues;
    var textRatio := okCount as real / Max(n, 1) as real;
    score := score + 5.0 * textRatio;
    if textRatio < 0.8 {
      recs := recs + ["各スライドのテキスト量を100文字以内に抑えてください"];
    } else {
      assert recs == count.recs + [];
    }

    var images := ImagesCriterion(|d.images|, n);
    score, issues, recs := score + images.points, issues + images.issues, recs + images.recs;
    var structure := SlideStructureCriterion(d.slides);
    score, issues, recs := score + structure.points, issues + structure.issues, recs + structure.recs;

    var design, sizeIssues := CheckImageSizes(d.images);
    issues := issues + sizeIssues;
    score := score + 5.0 * (if design > 0.0 then design else 0.0);

    var marp := MarpCriterion(d.markdown, d.pdfExists);
    score, issues, recs := score + marp.points, issues + marp.issues, recs + marp.recs;

    assert score == SlidesScore(d) && issues == SlidesIssues(d) && recs == SlidesRecs(d);
    r := Evaluation("slides", score, 30.0, score / 30.0 >= PassThreshold, issues, recs);
  }

  // ===== video =====

  /**
   * The video data: `videos.standard` (resolution, has_audio, size_bytes, duration),
   * the narration's audio size and script, the status, whether the video path is
   * given and exists, and the error text.
   */
  datatype VideoData = VideoData(
    resolution: Option<string>, hasAudio: Option<bool>, sizeBytes: Option<int>, duration: Option<int>,
    audioSize: Option<int>, script: Option<string>, status: Option<string>, pathExists: bool,
    error: Option<string>)

  const MiB: int := 1024 * 1024

  function ResolutionCriterion(res: string): (c: Criterion)
    ensures c.points == (if res == "1920x1080" then 5.0
      else if Contains(res, "1920") || Contains(res, "1080") then 3.5 else 0.0)
  {
    if res == "1920x1080" then Criterion(5.0, [], [])
    else if Contains(res, "1920") || Contains(res, "1080") then Criterion(3.5, ["解像度が標準と異なります: " + res], [])
    else Criterion(0.0, ["解像度が不適切: " + res], ["1920x1080の解像度で出力してください"])
  }

  /** Audio: 5 for a track over 50000 bytes with a script over 100 characters, 3 for any other track. */
  function AudioCriterion(hasAudio: bool, audioSize: int, script: string): (c: Criterion)
    ensures c.points == (if hasAudio && audioSize > 50000 && |script| > 100 then 5.0
      else if hasAudio && audioSize > 0 then 3.0 else 0.0)
  {
    if hasAudio then
      if audioSize > 50000 && |script| > 100 then Criterion(5.0, [], [])
      else if audioSize > 0 then Criterion(3.0, ["音声品質に改善の余地があります"], [])
      else Criterion(0.0, ["音声データが不正です"], [])
    else Criterion(0.0, ["音声が含まれていません（必須）"], ["TTS音声を生成して動画に統合してください"])
  }

  function TimingCriterion(duration: int): (c: Criterion)
    ensures c.points == (if 25 <= duration <= 120 then 5.0 else 2.5)
  {
    if 25 <= duration <= 120 then Criterion(5.0, [], [])
    else Criterion(2.5, ["動画の長さが不適切: " + IntToString(duration) + "秒"], [])
  }

  function TransitionsCriterion(size: int): (c: Criterion)
    ensures c.points == (if size > 5 * MiB then 5.0 else if size > 2 * MiB then 3.5 else 0.0)
  {
    if size > 5 * MiB then Criterion(5.0, [], [])
    else if size > 2 * MiB then Criterion(3.5, ["動画の品質が低い可能性があります"], [])
    else Criterion(0.0, ["動画ファイルサイズが小さすぎます"], ["高品質設定で動画を再レンダリングしてください"])
  }

  /** File size: full for 2 MiB..100 MiB, half for any other positive size, nothing for none. */
  function FileSizeCriterion(size: int): (c: Criterion)
    ensures c.points == 5.0 <==> 2 * MiB <= size <= 100 * MiB
    ensures c.points == 2.5 <==> size > 0 && !(2 * MiB <= size <= 100 * MiB)
    ensures c.points == 0.0 <==> size <= 0
  {
    if 2 * MiB <= size <= 100 * MiB then Criterion(5.0, [], [])
    else if size > 0 then
      Criterion(2.5, [if size < 2 * MiB then "ファイルサイズが小さすぎます" else "ファイルサイズが大きすぎます"], [])
    else Criterion(0.0, ["動画ファイルが存在しません"], [])
  }

  function ErrorsCriterion(status: Option<string>, pathExists: bool, error: Option<string>): (c: Criterion)
    ensures c.points == (if status == Some("success") && pathExists then 5.0
      else if status == Some("success") then 2.5 else 0.0)
  {
    if status == Some("success") && pathExists then Criterion(5.0, [], [])
    else if status == Some("success") then Criterion(2.5, ["動画ファイルが見つかりません"], [])
    else Criterion(0.0, ["動画生成エラー: " + error.GetOr("不明")], ["エラーを解決して動画を再生成してください"])
  }

  function VideoCriteria(v: VideoData): (cs: seq<Criterion>)
    ensures |cs| == 6
  {
    [ResolutionCriterion(v.resolution.GetOr("")),
     AudioCriterion(v.hasAudio.GetOr(false), v.audioSize.GetOr(0), v.script.GetOr("")),
     TimingCriterion(v.duration.GetOr(30)), TransitionsCriterion(v.sizeBytes.GetOr(0)),
     FileSizeCriterion(v.sizeBytes.GetOr(0)), ErrorsCriterion(v.status, v.pathExists, v.error)]
  }

  function VideoScore(v: VideoData): (s: real)
    ensures 2.5 <= s <= 30.0
  {
    var cs := VideoCriteria(v);
    cs[0].points + cs[1].points + cs[2].points + cs[3].points + cs[4].points + cs[5].points
  }

  function VideoIssues(v: VideoData): seq<string> {
    var cs := VideoCriteria(v);
    cs[0].issues + cs[1].issues + cs[2].issues + cs[3].issues + cs[4].issues + cs[5].issues
  }

  function VideoRecs(v: VideoData): seq<string> {
    var cs := VideoCriteria(v);
    cs[0].recs + cs[1].recs + cs[2].recs + cs[3].recs + cs[4].recs + cs[5].recs
  }

  /** The QualityResult of evaluate_video, as a value. */
  function VideoResult(v: VideoData): (r: Evaluation)
    ensures r.maxScore == 30.0 && 0.0 <= r.score <= 30.0
  {
    Evaluation("video", VideoScore(v), 30.0, VideoScore(v) / 30.0 >= PassThreshold, VideoIssues(v), VideoRecs(v))
  }

  /** evaluate_video: score, issues and recommendations as the criteria give them; passes at 29.1 of 30. */
  method EvaluateVideo(v: VideoData) returns (r: Evaluation)
    ensures r == VideoResult(v)
    ensures 0.0 <= r.score <= 30.0 && (r.passed <==> r.score >= 29.1)
  {
    var score := 0.0;
    var issues: seq<string> := [];
    var recs: seq<string> := [];
    var resolution := ResolutionCriterion(v.resolution.GetOr(""));
    score, issues, recs := score + resolution.points, issues + resolution.issues, recs + resolution.recs;
    var audio := AudioCriterion(v.hasAudio.GetOr(false), v.audioSize.GetOr(0), v.script.GetOr(""));
    score, issues, recs := score + audio.points, issues + audio.issues, recs + audio.recs;
    var timing := TimingCriterion(v.duration.GetOr(30));
    score, issues, recs := score + timing.points, issues + timing.issues, recs + timing.recs;
    var size := v.sizeBytes.GetOr(0);
    var transitions := TransitionsCriterion(size);
    score, issues, recs := score + transitions.points, issues + transitions.issues, recs + transitions.recs;
    var fileSize := FileSizeCriterion(size);
    score, issues, recs := score + fileSize.points, issues + fileSize.issues, recs + fileSize.recs;
    var errors := ErrorsCriterion(v.status, v.pathExists, v.error);
    score, issues, recs := score + errors.points, issues + errors.issues, recs + errors.recs;
    ghost var cs := VideoCriteria(v);
    assert resolution == cs[0] && audio == cs[1] && timing == cs[2];
    assert transitions == cs[3] && fileSize == cs[4] && errors == cs[5];
    assert [] + resolution.issues == resolution.issues && [] + resolution.recs == resolution.recs;
    r := Evaluation("video", score, 30.0, score / 30.0 >= PassThreshold, issues, recs);
  }

  // ===== evaluate_all =====

  /**
   * Python's `round(x, 1) * 10` on the exact value: the nearest integer, ties to
   * the even one.
   */
  function RoundHalfEven(x: real): (k: int)
    ensures k as real - 0.5 <= x <= k as real + 0.5
    ensures (x == k as real - 0.5 || x == k as real + 0.5) ==> k % 2 == 0
  {
    var f := x.Floor;
    var frac := x - f as real;
    if frac < 0.5 then f
    else if frac > 0.5 then f + 1
    else if f % 2 == 0 then f else f + 1
  }

  /** A category's percentage, in tenths of a percent. */
  function PercentTenths(e: Evaluation): int {
    if e.maxScore > 0.0 then RoundHalfEven(e.score / e.maxScore * 1000.0) else 0
  }

  /** Each category's percentage in tenths, in order. */
  function CategoryTenths(cs: seq<Evaluation>): (r: seq<int>)
    ensures |r| == |cs| && forall i :: 0 <= i < |cs| ==> r[i] == PercentTenths(cs[i])
  {
    seq(|cs|, i requires 0 <= i < |cs| => PercentTenths(cs[i]))
  }

  /** The evaluations evaluate_all makes: the article, then the slides and the video when given. */
  function Categories(a: Article, slides: Option<SlidesData>, video: Option<VideoData>): (cs: seq<Evaluation>)
    ensures 1 <= |cs| <= 3 && cs[0] == ArticleResult(a)
  {
    [ArticleResult(a)]
    + (if slides.Some? then [SlidesResult(slides.value)] else [])
    + (if video.Some? then [VideoResult(video.value)] else [])
  }

  function TotalScore(cs: seq<Evaluation>): real {
    if cs == [] then 0.0 else TotalScore(cs[..|cs| - 1]) + cs[|cs| - 1].score
  }

  function TotalMax(cs: seq<Evaluation>): real {
    if cs == [] then 0.0 else TotalMax(cs[..|cs| - 1]) + cs[|cs| - 1].maxScore
  }

  /** Appending a category adds its score and its maximum. */
  lemma TotalsSnoc(cs: seq<Evaluation>, e: Evaluation)
    ensures TotalScore(cs + [e]) == TotalScore(cs) + e.score
    ensures TotalMax(cs + [e]) == TotalMax(cs) + e.maxScore
  {
    assert (cs + [e])[..|cs|] == cs;
  }

  /** The overall percentage in tenths, 0 when nothing has a maximum. */
  function OverallTenths(cs: seq<Evaluation>): int {
    if TotalMax(cs) > 0.0 then RoundHalfEven(TotalScore(cs) / TotalMax(cs) * 1000.0) else 0
  }

  /** The overall verdict: the rounded percentage reaches 97.0, whatever the categories say. */
  predicate OverallPassed(cs: seq<Evaluation>) {
    OverallTenths(cs) >= 970
  }

  /** The rounded overall percentage reaches 97.0 exactly when the exact one reaches 96.95. */
  lemma OverallPassedIffRatio(cs: seq<Evaluation>)
    requires TotalMax(cs) > 0.0
    ensures OverallPassed(cs) <==> TotalScore(cs) / TotalMax(cs) * 1000.0 >= 969.5
  {
  }

  /** The items of a category's list, each prefixed "[category] ". */
  function Tagged(category: string, items: seq<string>): (r: seq<string>)
    ensures |r| == |items|
    ensures forall i :: 0 <= i < |items| ==> r[i] == "[" + category + "] " + items[i]
  {
    seq(|items|, i requires 0 <= i < |items| => "[" + category + "] " + items[i])
  }

  function AllIssues(cs: seq<Evaluation>): seq<string> {
    if cs == [] then [] else AllIssues(cs[..|cs| - 1]) + Tagged(cs[|cs| - 1].category, cs[|cs| - 1].issues)
  }

  function AllRecs(cs: seq<Evaluation>): seq<string> {
    if cs == [] then [] else AllRecs(cs[..|cs| - 1]) + Tagged(cs[|cs| - 1].category, cs[|cs| - 1].recs)
  }

  /** Every tagged issue names its category, and there is one per category issue. */
  lemma {:induction false} AllIssuesCount(cs: seq<Evaluation>)
    ensures |AllIssues(cs)| == TotalIssues(cs)
  {
    if cs != [] {
      AllIssuesCount(cs[..|cs| - 1]);
    }
  }

  function TotalIssues(cs: seq<Evaluation>): nat {
    if cs == [] then 0 else TotalIssues(cs[..|cs| - 1]) + |cs[|cs| - 1].issues|
  }

  /** `{:.1f}` of a value held in tenths: sign, integer part, '.', one digit. */
  function FormatTenths(k: int): (r: string)
    ensures |r| >= 3 && r[|r| - 2] == '.' && IsDigit(r[|r| - 1])
    ensures r[0] == '-' <==> k < 0
  {
    var m := if k < 0 then -k else k;
    var body := NatToString(m / 10) + "." + [DigitChar(m % 10)];
    if k < 0 then "-" + body else body
  }

  /** Reads a FormatTenths string back. */
  function ParseTenths(s: string): Option<int> {
    if |s| >= 3 && s[|s| - 2] == '.' && IsDigit(s[|s| - 1]) then
      var neg := s[0] == '-';
      var whole := if neg then s[1..|s| - 2] else s[..|s| - 2];
      if AllDigits(whole) && whole != [] then
        var m := 10 * DecimalValue(whole) + DigitValue(s[|s| - 1]);
        Some(if neg then -m else m)
      else None
    else None
  }

  lemma FormatTenthsRoundTrip(k: int)
    ensures ParseTenths(FormatTenths(k)) == Some(k)
  {
    var m := if k < 0 then -k else k;
    var q, d := m / 10, m % 10;
    var whole := NatToString(q);
    var s := FormatTenths(k);
    assert s == (if k < 0 then "-" else "") + (whole + "." + [DigitChar(d)]);
    NatToStringRoundTrip(q);
    ParseTenthsReads(s, k < 0, whole, DigitChar(d));
    assert DigitValue(DigitChar(d)) == d;
    assert 10 * q + d == m;
  }

  /** ParseTenths reads an optional sign, the digits before the point and the one after. */
  lemma ParseTenthsReads(s: string, neg: bool, whole: string, d: char)
    requires AllDigits(whole) && whole != [] && IsDigit(d)
    requires s == (if neg then "-" else "") + (whole + "." + [d])
    ensures ParseTenths(s) == Some(if neg then -(10 * DecimalValue(whole) + DigitValue(d))
                                   else 10 * DecimalValue(whole) + DigitValue(d))
  {
    assert s[|s| - 2] == '.' && s[|s| - 1] == d;
    if neg {
      assert s[1..|s| - 2] == whole;
    } else {
      assert s[..|s| - 2] == whole && s[0] != '-';
    }
  }

  const PassPrefix: string := "品質評価合格: "
  const FailPrefix: string := "品質評価不合格: "

  /** _generate_summary: the verdict, the percentage, and the threshold or the missing points. */
  function Summary(tenths: int, passed: bool): string {
    if passed then PassPrefix + FormatTenths(tenths) + "%（基準: 97.0%）"
    else FailPrefix + FormatTenths(tenths) + "%（基準まであと" + FormatTenths(970 - tenths) + "ポイント必要）"
  }

  lemma PassSummaryReadsBack(tenths: int)
    ensures StartsWith(Summary(tenths, true), PassPrefix)
    ensures Summary(tenths, true)[|PassPrefix|..][..|FormatTenths(tenths)|] == FormatTenths(tenths)
  {
    var f := FormatTenths(tenths);
    var rest := "%（基準: 97.0%）";
    MiddleSlice(PassPrefix, f, rest);
    StartsWithAppend(PassPrefix, f + rest, PassPrefix);
    assert PassPrefix + f + rest == PassPrefix + (f + rest);
  }

  lemma FailSummaryReadsBack(tenths: int)
    ensures !StartsWith(Summary(tenths, false), PassPrefix)
    ensures Summary(tenths, false)[|FailPrefix|..][..|FormatTenths(tenths)|] == FormatTenths(tenths)
  {
    var f := FormatTenths(tenths);
    var rest := "%（基準まであと" + FormatTenths(970 - tenths) + "ポイント必要）";
    MiddleSlice(FailPrefix, f, rest);
    assert Summary(tenths, false) == FailPrefix + f + rest;
    assert Summary(tenths, false)[4] != PassPrefix[4];
  }

  /** The verdict and the percentage can be read back from the summary. */
  lemma SummaryReadsBack(tenths: int, passed: bool)
    ensures var r := Summary(tenths, passed);
      (StartsWith(r, PassPrefix) <==> passed)
      && ParseTenths(r[|if passed then PassPrefix else FailPrefix|..][..|FormatTenths(tenths)|]) == Some(tenths)
  {
    FormatTenthsRoundTrip(tenths);
    if passed {
      PassSummaryReadsBack(tenths);
    } else {
      FailSummaryReadsBack(tenths);
    }
  }

  /** The report evaluate_all returns. */
  datatype Report = Report(
    totalScore: real, totalMax: real, percentTenths: int, passed: bool,
    categories: seq<Evaluation>, categoryTenths: seq<int>,
    allIssues: seq<string>, allRecs: seq<string>, summary: string)

  /**
   * evaluate_all: the categories supplied, their totals, the rounded overall
   * percentage and verdict, the tagged issue lists in category order, and the summary.
   * A slides or video dict that is empty is passed as `None`.
   */
  method EvaluateAll(a: Article, slides: Option<SlidesData>, video: Option<VideoData>) returns (rep: Report)
    ensures rep.categories == Categories(a, slides, video)
    ensures |rep.categoryTenths| == |rep.categories|
    ensures forall i :: 0 <= i < |rep.categories| ==> rep.categoryTenths[i] == PercentTenths(rep.categories[i])
    ensures rep.totalScore == TotalScore(rep.categories) && rep.totalMax == TotalMax(rep.categories)
    ensures rep.percentTenths == OverallTenths(rep.categories) && (rep.passed <==> OverallPassed(rep.categories))
    ensures rep.allIssues == AllIssues(rep.categories) && rep.allRecs == AllRecs(rep.categories)
    ensures rep.summary == Summary(rep.percentTenths, rep.passed)
  {
    var categories, totalScore, totalMax := EvaluateCategories(a, slides, video);
    var tenths := OverallTenths(categories);
    var passed := tenths >= 970;
    var categoryTenths := CategoryTenths(categories);
    var issues, recs := CollectTagged(categories);
    rep := Report(totalScore, totalMax, tenths, passed, categories, categoryTenths, issues, recs,
      Summary(tenths, passed));
  }

  /** The category steps of evaluate_all: evaluate what is supplied and add it to the totals. */
  method EvaluateCategories(a: Article, slides: Option<SlidesData>, video: Option<VideoData>)
    returns (categories: seq<Evaluation>, totalScore: real, totalMax: real)
    ensures categories == Categories(a, slides, video)
    ensures totalScore == TotalScore(categories) && totalMax == TotalMax(categories)
  {
    var articleResult := EvaluateArticle(a);
    TotalsSnoc([], articleResult);
    assert [] + [articleResult] == [articleResult];
    categories, totalScore, totalMax := [articleResult], articleResult.score, articleResult.maxScore;
    if slides.Some? {
      var slidesResult := EvaluateSlides(slides.value);
      TotalsSnoc(categories, slidesResult);
      categories := categories + [slidesResult];
      totalScore, totalMax := totalScore + slidesResult.score, totalMax + slidesResult.maxScore;
    } else {
      assert categories == categories + [];
    }
    if video.Some? {
      var videoResult := EvaluateVideo(video.value);
      TotalsSnoc(categories, videoResult);
      categories := categories + [videoResult];
      totalScore, totalMax := totalScore + videoResult.score, totalMax + videoResult.maxScore;
    } else {
      assert categories == categories + [];
    }
  }

  /** The loop of evaluate_all over its results, tagging every issue and recommendation. */
  method CollectTagged(cs: seq<Evaluation>) returns (issues: seq<string>, recs: seq<string>)
    ensures issues == AllIssues(cs) && recs == AllRecs(cs)
  {
    issues, recs := [], [];
    for c := 0 to |cs|
      invariant issues == AllIssues(cs[..c]) && recs == AllRecs(cs[..c])
    {
      assert cs[..c + 1][..c] == cs[..c];
      var e := cs[c];
      for i := 0 to |e.issues|
        invariant issues == AllIssues(cs[..c]) + Tagged(e.category, e.issues[..i])
      {
        assert e.issues[..i + 1] == e.issues[..i] + [e.issues[i]];
        issues := issues + ["[" + e.category + "] " + e.issues[i]];
      }
      for i := 0 to |e.recs|
        invariant recs == AllRecs(cs[..c]) + Tagged(e.category, e.recs[..i])
      {
        assert e.recs[..i + 1] == e.recs[..i] + [e.recs[i]];
        recs := recs + ["[" + e.category + "] " + e.recs[i]];
      }
      assert e.issues[..|e.issues|] == e.issues && e.recs[..|e.recs|] == e.recs;
    }
    assert cs[..|cs|] == cs;
  }

  /** The totals of evaluate_all: at least the article's 50 points of maximum, the score within it. */
  lemma TotalsBounded(a: Article, slides: Option<SlidesData>, video: Option<VideoData>)
    ensures var cs := Categories(a, slides, video);
      50.0 <= TotalMax(cs) <= 110.0 && 0.0 <= TotalScore(cs) <= TotalMax(cs)
  {
    var art := ArticleResult(a);
    var cs1 := [art];
    assert cs1[..0] == [];
    var cs2 := if slides.Some? then cs1 + [SlidesResult(slides.value)] else cs1;
    if slides.Some? {
      TotalsSnoc(cs1, SlidesResult(slides.value));
    }
    var cs3 := if video.Some? then cs2 + [VideoResult(video.value)] else cs2;
    if video.Some? {
      TotalsSnoc(cs2, VideoResult(video.value));
    }
    assert cs3 == Categories(a, slides, video);
  }

  /** A category whose passed flag is its own 97% test. */
  predicate Consistent(e: Evaluation) {
    e.maxScore > 0.0 && (e.passed <==> e.score / e.maxScore >= PassThreshold)
  }

  lemma {:induction false} PassedScoresSum(cs: seq<Evaluation>)
    requires forall i :: 0 <= i < |cs| ==> Consistent(cs[i]) && cs[i].passed
    ensures TotalScore(cs) >= PassThreshold * TotalMax(cs)
    ensures cs != [] ==> TotalMax(cs) > 0.0
  {
    if cs != [] {
      var e := cs[|cs| - 1];
      PassedScoresSum(cs[..|cs| - 1]);
      assert e.score >= PassThreshold * e.maxScore by {
        assert e.score / e.maxScore >= PassThreshold;
        assert e.score == (e.score / e.maxScore) * e.maxScore;
      }
    }
  }

  /** When every supplied category passes its own test, the overall verdict is a pass. */
  lemma AllCategoriesPassOverallPasses(cs: seq<Evaluation>)
    requires cs != []
    requires forall i :: 0 <= i < |cs| ==> Consistent(cs[i]) && cs[i].passed
    ensures OverallPassed(cs)
  {
    PassedScoresSum(cs);
    OverallPassedIffRatio(cs);
    var x := TotalScore(cs) / TotalMax(cs);
    assert TotalScore(cs) == x * TotalMax(cs);
    assert x >= PassThreshold;
  }

  /** The overall verdict ignores the categories' flags: 48/50, 30/30, 30/30 passes with a failed article. */
  lemma OverallIgnoresCategoryFlags()
    ensures var cs := [Evaluation("article", 48.0, 50.0, false, [], []),
                       Evaluation("slides", 30.0, 30.0, true, [], []),
                       Evaluation("video", 30.0, 30.0, true, [], [])];
      Consistent(cs[0]) && !cs[0].passed && OverallPassed(cs)
  {
    var cs := [Evaluation("article", 48.0, 50.0, false, [], []),
               Evaluation("slides", 30.0, 30.0, true, [], []),
               Evaluation("video", 30.0, 30.0, true, [], [])];
    TotalsSnoc([], cs[0]);
    TotalsSnoc([cs[0]], cs[1]);
    TotalsSnoc([cs[0], cs[1]], cs[2]);
    assert [cs[0], cs[1]] + [cs[2]] == cs;
    OverallPassedIffRatio(cs);
  }
}
