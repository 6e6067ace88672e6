/**
 * The Remotion blog video of src/scripts/generate_video.py: the key points
 * `_extract_points_from_content` picks out of an article (`##` headings first,
 * bullet lines after), the default points of the `generate_video` entry point,
 * and the props files a render writes and always removes again.
 */
module Points {
  import opened Wrappers
  import opened Text

  /** `content.split('\n')`. */
  function Lines(content: string): seq<string> {
    Split(content, IsNewline)
  }

  const SkipKeywords: seq<string> := ["まとめ", "参考", "はじめに", "導入", "結論", "目次", "概要"]

  /** Whether some keyword occurs in the point. */
  predicate ContainsAny(point: string, keywords: seq<string>) {
    keywords != [] && (Contains(point, keywords[0]) || ContainsAny(point, keywords[1..]))
  }

  predicate HasSkipKeyword(point: string) {
    ContainsAny(point, SkipKeywords)
  }

  /** The point a `## ` heading line gives: the stripped text after the prefix, unless it names a skipped section. */
  function HeadingPoint(line: string): (p: Option<string>)
    ensures p.Some? ==> StartsWith(line, "## ") && !StartsWith(line, "### ")
    ensures p.Some? ==> !HasSkipKeyword(p.value)
  {
    if StartsWith(line, "## ") && !StartsWith(line, "### ") && !HasSkipKeyword(Strip(line[3..])) then
      Some(Strip(line[3..]))
    else None
  }

  /** The point a bullet line gives: after "- " or "* " (once stripped), between 11 and 99 characters. */
  function BulletPoint(line: string): (p: Option<string>)
    ensures p.Some? ==> 10 < |p.value| < 100
    ensures p.Some? ==> StartsWith(Strip(line), "- ") || StartsWith(Strip(line), "* ")
  {
    var s := Strip(line);
    if (StartsWith(s, "- ") || StartsWith(s, "* ")) && 10 < |Strip(s[2..])| < 100 then Some(Strip(s[2..]))
    else None
  }

  /** The points `pick` finds in the lines, in document order. */
  function Picked(lines: seq<string>, pick: string -> Option<string>): seq<string> {
    if lines == [] then []
    else
      var p := pick(lines[|lines| - 1]);
      Picked(lines[..|lines| - 1], pick) + (if p.Some? then [p.value] else [])
  }

  lemma {:induction false} PickedAppend(a: seq<string>, b: seq<string>, pick: string -> Option<string>)
    ensures Picked(a + b, pick) == Picked(a, pick) + Picked(b, pick)
    decreases |b|
  {
    if b == [] {
      assert a + b == a;
    } else {
      var b' := b[..|b| - 1];
      assert (a + b)[..|a + b| - 1] == a + b';
      PickedAppend(a, b', pick);
    }
  }

  /** The points of the first `n` lines are the first points of all the lines. */
  lemma PickedPrefix(lines: seq<string>, n: nat, pick: string -> Option<string>)
    requires n <= |lines|
    ensures Take(Picked(lines, pick), |Picked(lines[..n], pick)|) == Picked(lines[..n], pick)
  {
    var pre := Picked(lines[..n], pick);
    PickedAppend(lines[..n], lines[n..], pick);
    assert lines[..n] + lines[n..] == lines;
    TakeConcat(pre, Picked(lines[n..], pick), |pre|);
    assert pre[..|pre|] == pre;
  }

  /** Every picked point comes from some line. */
  lemma {:induction false} PickedFromSomeLine(lines: seq<string>, pick: string -> Option<string>, k: nat)
    requires k < |Picked(lines, pick)|
    ensures exists j :: 0 <= j < |lines| && pick(lines[j]) == Some(Picked(lines, pick)[k])
    decreases |lines|
  {
    var init := lines[..|lines| - 1];
    if k < |Picked(init, pick)| {
      PickedFromSomeLine(init, pick, k);
      var j :| 0 <= j < |init| && pick(init[j]) == Some(Picked(init, pick)[k]);
      assert lines[j] == init[j];
    } else {
      assert pick(lines[|lines| - 1]) == Some(Picked(lines, pick)[k]);
    }
  }

  /**
   * What `_extract_points_from_content` returns: the heading points, then the bullet
   * points, cut to `max_points`.
   */
  function ExtractedPoints(lines: seq<string>, maxPoints: int): seq<string> {
    if maxPoints <= 0 then [] else Take(Picked(lines, HeadingPoint) + Picked(lines, BulletPoint), maxPoints)
  }

  /** Cutting a concatenation: the first part alone when it is long enough, else all of it and the rest from the second. */
  lemma TakeConcat(xs: seq<string>, ys: seq<string>, n: nat)
    ensures |Take(xs + ys, n)| == Min(n, |xs| + |ys|)
    ensures |xs| >= n ==> Take(xs + ys, n) == xs[..n]
    ensures |xs| < n ==> Take(xs + ys, n) == xs + Take(ys, n - |xs|)
  {
    if |xs| < n {
      assert (xs + ys)[..Min(n, |xs| + |ys|)] == xs + ys[..Min(n - |xs|, |ys|)];
    } else {
      assert (xs + ys)[..n] == xs[..n];
    }
  }

  /** The bullet pass only contributes when the headings gave fewer than `max_points`. */
  lemma HeadingsFirst(lines: seq<string>, maxPoints: int)
    requires maxPoints > 0
    ensures var hs, bs := Picked(lines, HeadingPoint), Picked(lines, BulletPoint);
      (|hs| >= maxPoints ==> ExtractedPoints(lines, maxPoints) == hs[..maxPoints])
      && (|hs| < maxPoints ==> ExtractedPoints(lines, maxPoints) == hs + Take(bs, maxPoints - |hs|))
  {
    TakeConcat(Picked(lines, HeadingPoint), Picked(lines, BulletPoint), maxPoints);
  }

  /** Each extracted point is a heading point or a bullet point of some line. */
  lemma ExtractedPointOrigin(lines: seq<string>, maxPoints: int, k: nat)
    requires k < |ExtractedPoints(lines, maxPoints)|
    ensures exists j :: 0 <= j < |lines| && (HeadingPoint(lines[j]) == Some(ExtractedPoints(lines, maxPoints)[k])
                                            || BulletPoint(lines[j]) == Some(ExtractedPoints(lines, maxPoints)[k]))
  {
    var hs, bs := Picked(lines, HeadingPoint), Picked(lines, BulletPoint);
    assert ExtractedPoints(lines, maxPoints)[k] == (hs + bs)[k];
    if k < |hs| {
      PickedFromSomeLine(lines, HeadingPoint, k);
    } else {
      PickedFromSomeLine(lines, BulletPoint, k - |hs|);
    }
  }

  lemma PickedStep(lines: seq<string>, i: nat, pick: string -> Option<string>)
    requires i < |lines|
    ensures Picked(lines[..i + 1], pick)
            == Picked(lines[..i], pick) + (if pick(lines[i]).Some? then [pick(lines[i]).value] else [])
  {
    assert lines[..i + 1][..i] == lines[..i];
  }

  /**
   * One pass of `_extract_points_from_content` over the lines: append each point
   * `pick` finds to `points`, and stop once there are `max_points`. The heading
   * pass starts from no points, the bullet pass from the heading points.
   */
  method PickPass(lines: seq<string>, pick: string -> Option<string>, maxPoints: int, start: seq<string>)
    returns (points: seq<string>)
    requires |start| < Max(maxPoints, 1)
    ensures points == start + Take(Picked(lines, pick), Max(maxPoints, 1) - |start|)
  {
    ghost var found: seq<string> := [];
    points := start;
    var i := 0;
    while i < |lines|
      invariant 0 <= i <= |lines|
      invariant found == Picked(lines[..i], pick) && points == start + found && |points| < Max(maxPoints, 1)
    {
      PickedStep(lines, i, pick);
      var p := pick(lines[i]);
      if p.Some? {
        points := points + [p.value];
        found := found + [p.value];
        if |points| >= maxPoints {
          PickedPrefix(lines, i + 1, pick);
          return;
        }
      }
      i := i + 1;
    }
    assert lines[..|lines|] == lines;
    assert found[..|found|] == found;
  }

  lemma SliceToShort(xs: seq<string>, k: int)
    requires 0 <= |xs| <= k
    ensures SliceTo(xs, k) == xs
  {
    assert xs[..|xs|] == xs;
  }

  /** `_extract_points_from_content`: the two passes, then `points[:max_points]`. */
  method ExtractPointsFromContent(content: string, maxPoints: int) returns (points: seq<string>)
    ensures points == ExtractedPoints(Lines(content), maxPoints)
  {
    var lines := Lines(content);
    ghost var hs, bs := Picked(lines, HeadingPoint), Picked(lines, BulletPoint);
    points := PickPass(lines, HeadingPoint, maxPoints, []);
    assert points == Take(hs, Max(maxPoints, 1));
    if |points| < maxPoints {
      assert points == hs;
      points := PickPass(lines, BulletPoint, maxPoints, points);
      HeadingsFirst(lines, maxPoints);
      assert points == ExtractedPoints(lines, maxPoints) && |points| <= maxPoints;
      SliceToShort(points, maxPoints);
    } else if maxPoints > 0 {
      HeadingsFirst(lines, maxPoints);
      assert points == ExtractedPoints(lines, maxPoints) && |points| == maxPoints;
      SliceToShort(points, maxPoints);
    } else {
      assert |points| <= 1 && ExtractedPoints(lines, maxPoints) == [];
      assert |SliceTo(points, maxPoints)| == 0;
    }
    points := SliceTo(points, maxPoints);
  }

  const DefaultPoints: seq<string> := ["最新トレンドの分析", "実践的なアドバイス", "今後の展望"]

  /**
   * The points of `generate_video(article)`: the article's own when it has any,
   * else up to three extracted from a non-empty content, else the three defaults.
   * A missing "points" key is the empty list.
   */
  method ChoosePoints(given: seq<string>, content: string) returns (points: seq<string>)
    ensures given != [] ==> points == given
    ensures given == [] && content == "" ==> points == DefaultPoints
    ensures given == [] && content != "" ==>
      points == (if ExtractedPoints(Lines(content), 3) != [] then ExtractedPoints(Lines(content), 3) else DefaultPoints)
    ensures points != [] && (given == [] ==> |points| <= 3)
  {
    points := given;
    if points == [] && content != "" {
      points := ExtractPointsFromContent(content, 3);
    }
    if points == [] {
      points := DefaultPoints;
    }
  }

  /** The props handed to Remotion; `isShort` is a key only the short video's props carry. */
  datatype Props = Props(
    title: string, summary: string, points: seq<string>, topic: string, date: string,
    authorName: string, isShort: Option<bool>)

  /** The props with the short-video flag set and every other key kept. */
  function ShortProps(p: Props): (s: Props)
    ensures s.isShort == Some(true)
    ensures s.(isShort := p.isShort) == p
  {
    p.(isShort := Some(true))
  }

  const PropsFile: string := "props.json"
  const PropsShortFile: string := "props_short.json"

  /** The remotion directory's files, as far as the props files go. */
  class RemotionDir {
    var files: set<string>

    constructor(files: set<string>)
      ensures this.files == files
    {
      this.files := files;
    }
  }

  datatype RenderedVideo = RenderedVideo(path: string, duration: nat, resolution: string, sizeBytes: nat)

  /** The result dict, or the VideoGenerationError raised when Node.js or the dependencies are missing. */
  datatype VideoResult =
    | DependenciesMissing
    | VideoResult(status: string, standard: Option<RenderedVideo>, short: Option<RenderedVideo>,
                  generatedAt: string, error: Option<string>)

  function StandardOutput(outputDir: string, timestamp: string, topic: string): string {
    outputDir + "/blog_video_" + timestamp + "_" + topic + ".mp4"
  }

  function ShortOutput(outputDir: string, timestamp: string, topic: string): string {
    outputDir + "/blog_video_short_" + timestamp + "_" + topic + ".mp4"
  }

  /**
   * `BlogVideoGenerator.generate_video` after the dependency check: write the props
   * files, render the standard and then the short video (a non-zero exit code of
   * `node render.mjs` raises CalledProcessError), and in `finally` remove both
   * props files. Exit codes, output sizes (None when the file is missing) and the
   * error text are inputs.
   */
  method GenerateVideo(dir: RemotionDir, dependenciesOk: bool, props: Props, generateShort: bool,
                       outputDir: string, timestamp: string, standardExit: int, shortExit: int,
                       standardSize: Option<nat>, shortSize: Option<nat>, errorText: string)
    returns (r: VideoResult)
    modifies dir
    ensures r.DependenciesMissing? <==> !dependenciesOk
    ensures !dependenciesOk ==> dir.files == old(dir.files)
    ensures dependenciesOk ==> dir.files == old(dir.files) - {PropsFile, PropsShortFile}
    ensures r.VideoResult? ==> (r.status == "success" <==> standardExit == 0 && (!generateShort || shortExit == 0))
    ensures r.VideoResult? ==> (r.error.Some? <==> r.status == "error") && r.generatedAt == timestamp
    ensures r.VideoResult? ==> (r.standard.Some? <==> standardExit == 0)
    ensures r.VideoResult? ==> (r.short.Some? <==> standardExit == 0 && generateShort && shortExit == 0)
    ensures r.VideoResult? && r.standard.Some? ==> r.standard.value == RenderedVideo(
      StandardOutput(outputDir, timestamp, props.topic), 30, "1920x1080", standardSize.GetOr(0))
    ensures r.VideoResult? && r.short.Some? ==> r.short.value == RenderedVideo(
      ShortOutput(outputDir, timestamp, props.topic), 15, "1080x1920", shortSize.GetOr(0))
  {
    if !dependenciesOk {
      return DependenciesMissing;
    }
    r := VideoResult("success", None, None, timestamp, None);
    dir.files := dir.files + {PropsFile};
    if generateShort {
      dir.files := dir.files + {PropsShortFile};
    }
    if standardExit != 0 {
      r := r.(status := "error", error := Some(errorText));
    } else {
      r := r.(standard := Some(RenderedVideo(StandardOutput(outputDir, timestamp, props.topic), 30, "1920x1080",
        standardSize.GetOr(0))));
      if generateShort {
        if shortExit != 0 {
          r := r.(status := "error", error := Some(errorText));
        } else {
          r := r.(short := Some(RenderedVideo(ShortOutput(outputDir, timestamp, props.topic), 15, "1080x1920",
            shortSize.GetOr(0))));
        }
      }
    }
    dir.files := dir.files - {PropsFile, PropsShortFile};
  }
}
