/**
 * The bookkeeping of the V2 video generator (src/scripts/generate_video_v2.py):
 * fitting the model's script to the requested slide count, the fallback script,
 * one image per slide with a gradient fallback, the TTS duration rules and the
 * Remotion props. The model, image and TTS calls are oracle inputs.
 */
module VideoV2 {
  import opened Wrappers
  import opened Text
  import NarrationV3

  /**
   * A slide dict of the script. `slide_id` is read with `[]`, every other key with
   * `.get`, so those are options; the image and audio steps add the last five keys.
   */
  datatype Slide = Slide(
    slideId: int, kind: Option<string>, heading: Option<string>, subheading: Option<string>,
    points: Option<seq<string>>, narration: Option<string>, imagePrompt: Option<string>,
    audioDuration: Option<real>, audioPath: Option<string>,
    imagePath: Option<string>, imageBase64: Option<string>, generationMethod: Option<string>)

  const PlainBackgroundPrompt: string :=
    "Abstract professional background, soft gradient, minimalist design, 16:9 aspect ratio, no text"
  const PaddingNarration: string := "続いてのポイントをご紹介します。"

  /** The slide `_adjust_slide_count` appends at 1-based position `idx` for a deck of `target`. */
  function PaddingSlide(idx: nat, target: int): (s: Slide)
    requires idx >= 1
    ensures s.slideId == idx && s.narration == Some(PaddingNarration)
    ensures s.kind == Some(if idx < target then "content" else "ending")
  {
    Slide(idx, Some(if idx < target then "content" else "ending"), Some("追加ポイント" + NatToString(idx - 1)),
      Some(""), Some(["詳細は本編で解説"]), Some(PaddingNarration), Some(PlainBackgroundPrompt),
      None, None, None, None, None)
  }

  /** The slide with its type overwritten, as `slides[-1]["type"] = "ending"` does. */
  function AsEnding(s: Slide): Slide {
    s.(kind := Some("ending"))
  }

  /**
   * _adjust_slide_count: pad with numbered slides up to `target`, or cut with
   * `slides[:target]` (which for a negative `target` drops from the end), then retype
   * the last slide as the ending.
   */
  method AdjustSlideCount(slides: seq<Slide>, target: int) returns (r: seq<Slide>)
    ensures |r| == (if target >= 0 then target else Max(|slides| + target, 0))
    ensures forall i :: 0 <= i < |r| - 1 && i < |slides| ==> r[i] == slides[i]
    ensures forall i :: |slides| <= i < |r| ==> r[i] == PaddingSlide(i + 1, target)
    ensures 0 < |r| <= |slides| ==> r[|r| - 1] == AsEnding(slides[|r| - 1])
    ensures r != [] ==> r[|r| - 1].kind == Some("ending")
  {
    r := slides;
    if |r| < target {
      while |r| < target
        invariant |slides| <= |r| <= target && r[..|slides|] == slides
        invariant forall i :: |slides| <= i < |r| ==> r[i] == PaddingSlide(i + 1, target)
      {
        var idx := |r| + 1;
        r := r + [PaddingSlide(idx, target)];
      }
    } else if |r| > target {
      r := SliceTo(r, target);
    }
    if r != [] {
      r := r[|r| - 1 := AsEnding(r[|r| - 1])];
    }
  }

  /** Padding slides keep their own type; the last one is already the ending. */
  lemma PaddedDeckEndsWithPadding(slides: seq<Slide>, target: int, r: seq<Slide>)
    requires |slides| < target && |r| == target
    requires forall i :: |slides| <= i < |r| ==> r[i] == PaddingSlide(i + 1, target)
    ensures r[target - 1] == AsEnding(PaddingSlide(target, target)) == PaddingSlide(target, target)
  {
  }

  /** The script returned by `_create_fallback_script`. */
  datatype Script = Script(title: string, description: string, slides: seq<Slide>, audioStyle: string)

  /** Fallback slide `i` (1-based) of `n`: the topic first, the summary last, numbered points between. */
  function FallbackSlide(topicName: string, i: nat, n: int): (s: Slide)
    requires i >= 1
    ensures s.slideId == i
    ensures s.kind == Some(if i == 1 then "title" else if i == n then "ending" else "content")
  {
    var (kind, heading, narration) :=
      if i == 1 then ("title", topicName, "今回は" + topicName + "について解説します。")
      else if i == n then ("ending", "まとめ", "以上が今回のまとめです。ぜひブログもご覧ください。")
      else ("content", "ポイント" + NatToString(i - 1), "ポイント" + NatToString(i - 1) + "について説明します。");
    Slide(i, Some(kind), Some(heading), Some(""), Some([]), Some(narration), Some(PlainBackgroundPrompt),
      None, None, None, None, None)
  }

  /**
   * _create_fallback_script: slides 1..num_slides (none for a count below 1), the
   * first of type "title", the last of type "ending" when there are two or more, the
   * rest "content"; the title is the topic's name, else its key.
   */
  method FallbackScript(topic: string, topicInfoName: Option<string>, numSlides: int) returns (s: Script)
    ensures |s.slides| == Max(numSlides, 0)
    ensures forall i :: 0 <= i < |s.slides| ==> s.slides[i] == FallbackSlide(topicInfoName.GetOr(topic), i + 1, numSlides)
    ensures s.title == topicInfoName.GetOr(topic) && s.audioStyle == "calm"
    ensures s.description == s.title + "の解説動画"
  {
    var topicName := topicInfoName.GetOr(topic);
    var slides: seq<Slide> := [];
    var i := 1;
    while i <= numSlides
      invariant 1 <= i && |slides| == i - 1 && i - 1 <= Max(numSlides, 0)
      invariant forall j :: 0 <= j < |slides| ==> slides[j] == FallbackSlide(topicName, j + 1, numSlides)
    {
      slides := slides + [FallbackSlide(topicName, i, numSlides)];
      i := i + 1;
    }
    s := Script(topicName, topicName + "の解説動画", slides, "calm");
  }

  /** The fallback deck's types: title first, ending last (from two slides), content between. */
  lemma FallbackScriptShape(topicName: string, n: nat, i: nat)
    requires 1 <= i <= n
    ensures FallbackSlide(topicName, i, n).kind == Some("title") <==> i == 1
    ensures FallbackSlide(topicName, i, n).kind == Some("ending") <==> i == n && n >= 2
  {
  }

  // ----- slide images -----

  /** The path and data URL an image step gives slide `s`. */
  function ImagePathFor(outputDir: string, s: Slide): string {
    outputDir + "/slide_" + Pad2Int(s.slideId) + ".png"
  }

  /** `_generate_image_gemini` never tries an empty prompt; `modelOk` is what the model call did. */
  predicate ImageGenerated(s: Slide, modelOk: bool) {
    s.imagePrompt.GetOr("") != "" && modelOk
  }

  /** The slide with its image fields: the path, the PNG as a data URL, and which route made it. */
  function WithImage(s: Slide, outputDir: string, modelOk: bool, encodedPng: string): Slide {
    s.(imagePath := Some(ImagePathFor(outputDir, s)),
       imageBase64 := Some("data:image/png;base64," + encodedPng),
       generationMethod := Some(if ImageGenerated(s, modelOk) then "gemini" else "fallback"))
  }

  /**
   * An image result keeps the slide and adds its path, named after its id, and its
   * route; an empty prompt always means the fallback.
   */
  lemma WithImageFields(s: Slide, outputDir: string, modelOk: bool, encodedPng: string)
    ensures var r := WithImage(s, outputDir, modelOk, encodedPng);
      r.slideId == s.slideId && r.kind == s.kind && r.heading == s.heading && r.narration == s.narration
      && r.imagePath == Some(outputDir + "/slide_" + Pad2Int(s.slideId) + ".png")
      && r.generationMethod == Some(if s.imagePrompt.GetOr("") != "" && modelOk then "gemini" else "fallback")
      && (s.imagePrompt.GetOr("") == "" ==> r.generationMethod == Some("fallback"))
  {
  }

  /** Slides with different ids get different image files. */
  lemma ImagePathsDistinct(s: Slide, t: Slide, outputDir: string)
    requires s.slideId != t.slideId
    ensures ImagePathFor(outputDir, s) != ImagePathFor(outputDir, t)
  {
    Pad2IntInjective(s.slideId, t.slideId);
    var p, q := Pad2Int(s.slideId), Pad2Int(t.slideId);
    var pre := outputDir + "/slide_";
    var x, y := pre + p + ".png", pre + q + ".png";
    assert x[|pre|..|pre| + |p|] == p && |x| == |pre| + |p| + 4;
    assert y[|pre|..|pre| + |q|] == q && |y| == |pre| + |q| + 4;
  }

  function GeneratedCount(slides: seq<Slide>, modelOk: seq<bool>): (n: nat)
    requires |modelOk| == |slides|
    ensures n <= |slides|
  {
    if slides == [] then 0
    else
      var last := if ImageGenerated(slides[|slides| - 1], modelOk[|slides| - 1]) then 1 else 0;
      GeneratedCount(slides[..|slides| - 1], modelOk[..|slides| - 1]) + last
  }

  lemma GeneratedCountStep(slides: seq<Slide>, modelOk: seq<bool>, i: nat)
    requires |modelOk| == |slides| && i < |slides|
    ensures GeneratedCount(slides[..i + 1], modelOk[..i + 1])
      == GeneratedCount(slides[..i], modelOk[..i]) + (if ImageGenerated(slides[i], modelOk[i]) then 1 else 0)
  {
    assert slides[..i + 1][..i] == slides[..i] && modelOk[..i + 1][..i] == modelOk[..i];
  }

  /** Every slide with its image fields, in order. */
  function WithImages(slides: seq<Slide>, outputDir: string, modelOk: seq<bool>, encodedPng: seq<string>): (rs: seq<Slide>)
    requires |modelOk| == |slides| && |encodedPng| == |slides|
    ensures |rs| == |slides|
    ensures forall i :: 0 <= i < |slides| ==> rs[i] == WithImage(slides[i], outputDir, modelOk[i], encodedPng[i])
  {
    seq(|slides|, i requires 0 <= i < |slides| => WithImage(slides[i], outputDir, modelOk[i], encodedPng[i]))
  }

  lemma WithImagesSnoc(slides: seq<Slide>, outputDir: string, modelOk: seq<bool>, encodedPng: seq<string>, i: nat)
    requires |modelOk| == |slides| && |encodedPng| == |slides| && i < |slides|
    ensures WithImages(slides[..i + 1], outputDir, modelOk[..i + 1], encodedPng[..i + 1])
      == WithImages(slides[..i], outputDir, modelOk[..i], encodedPng[..i]) + [WithImage(slides[i], outputDir, modelOk[i], encodedPng[i])]
  {
  }

  /**
   * SlideImageGenerator.generate_all: one result per slide, in order, each made by
   * the model or by the fallback; the two counters add up to the number of slides.
   * `modelOk[i]` and `encodedPng[i]` are what the model call and the file encoding gave.
   */
  method GenerateImages(slides: seq<Slide>, outputDir: string, modelOk: seq<bool>, encodedPng: seq<string>)
    returns (results: seq<Slide>, successful: nat, fallbackCount: nat)
    requires |modelOk| == |slides| && |encodedPng| == |slides|
    ensures results == WithImages(slides, outputDir, modelOk, encodedPng)
    ensures successful == GeneratedCount(slides, modelOk) && successful + fallbackCount == |slides|
  {
    results, successful, fallbackCount := [], 0, 0;
    for i := 0 to |slides|
      invariant successful + fallbackCount == i
      invariant successful == GeneratedCount(slides[..i], modelOk[..i])
      invariant results == WithImages(slides[..i], outputDir, modelOk[..i], encodedPng[..i])
    {
      GeneratedCountStep(slides, modelOk, i);
      WithImagesSnoc(slides, outputDir, modelOk, encodedPng, i);
      if ImageGenerated(slides[i], modelOk[i]) {
        successful := successful + 1;
      } else {
        fallbackCount := fallbackCount + 1;
      }
      results := results + [WithImage(slides[i], outputDir, modelOk[i], encodedPng[i])];
    }
    assert slides[..|slides|] == slides && modelOk[..|slides|] == modelOk && encodedPng[..|slides|] == encodedPng;
  }

  // ----- gradient fallback image -----

  datatype Rgb = Rgb(r: int, g: int, b: int)

  predicate IsHexDigit(c: char) {
    '0' <= c <= '9' || 'a' <= c <= 'f' || 'A' <= c <= 'F'
  }

  function HexDigitValue(c: char): (d: nat)
    requires IsHexDigit(c)
    ensures d < 16
  {
    if '0' <= c <= '9' then (c as int) - ('0' as int)
    else if 'a' <= c <= 'f' then (c as int) - ('a' as int) + 10
    else (c as int) - ('A' as int) + 10
  }

  /**
   * `int(s, 16)` on a slice of one or two hex digits. Any other slice gives `None`:
   * Python would raise for some of them and read others (a sign, surrounding
   * whitespace), but hex_to_rgb is only given the constant `#rrggbb` colours.
   */
  function ParseHexByte(s: string): (r: Option<nat>)
    ensures r.Some? ==> r.value < 256
  {
    if |s| == 1 && IsHexDigit(s[0]) then Some(HexDigitValue(s[0]))
    else if |s| == 2 && IsHexDigit(s[0]) && IsHexDigit(s[1]) then Some(16 * HexDigitValue(s[0]) + HexDigitValue(s[1]))
    else None
  }

  /** `s.lstrip('#')`. */
  function StripHashes(s: string): (r: string)
    ensures |r| <= |s| && r == s[|s| - |r|..] && (r == [] || r[0] != '#')
  {
    if s != [] && s[0] == '#' then StripHashes(s[1..]) else s
  }

  /** Python's `s[i:i+2]`. */
  function Slice2(s: string, i: nat): string {
    if i >= |s| then [] else s[i..Min(i + 2, |s|)]
  }

  /** hex_to_rgb: strip the '#'s and read the pairs at 0, 2 and 4; a bad pair raises. */
  function HexToRgb(hex: string): Option<Rgb> {
    var h := StripHashes(hex);
    var r, g, b := ParseHexByte(Slice2(h, 0)), ParseHexByte(Slice2(h, 2)), ParseHexByte(Slice2(h, 4));
    if r.Some? && g.Some? && b.Some? then Some(Rgb(r.value, g.value, b.value)) else None
  }

  function HexChar(d: nat): (c: char)
    requires d < 16
    ensures IsHexDigit(c) && HexDigitValue(c) == d
  {
    if d < 10 then (('0' as int) + d) as char else (('a' as int) + d - 10) as char
  }

  /** `f"{v:02x}"`. */
  function HexByte(v: nat): (s: string)
    requires v < 256
    ensures |s| == 2 && ParseHexByte(s) == Some(v)
  {
    [HexChar(v / 16), HexChar(v % 16)]
  }

  /** A colour written as "#rrggbb" reads back as itself. */
  lemma HexToRgbRoundTrip(c: Rgb)
    requires 0 <= c.r < 256 && 0 <= c.g < 256 && 0 <= c.b < 256
    ensures HexToRgb("#" + HexByte(c.r) + HexByte(c.g) + HexByte(c.b)) == Some(c)
  {
    var x, y, z := HexByte(c.r), HexByte(c.g), HexByte(c.b);
    var body := x + y + z;
    var full := "#" + x + y + z;
    assert full == "#" + body;
    assert full[1..] == body;
    assert StripHashes(full) == StripHashes(body) == body;
    assert Slice2(body, 0) == body[0..2] == x;
    assert Slice2(body, 2) == body[2..4] == y;
    assert Slice2(body, 4) == body[4..6] == z;
  }

  /** The `(primary, secondary)` pair of a TOPIC_COLORS entry, with the default scheme for an unknown topic. */
  function TopicGradient(topicId: string): (string, string) {
    match topicId
    case "psychology" => ("#2b6cb0", "#4299e1")
    case "education" => ("#2f855a", "#48bb78")
    case "startup" => ("#c05621", "#ed8936")
    case "investment" => ("#744210", "#d69e2e")
    case "ai_tools" => ("#1a365d", "#3182ce")
    case "inclusive_education" => ("#285e61", "#38b2ac")
    case "weekly_summary" => ("#553c9a", "#805ad5")
    case _ => ("#1a1a2e", "#4a4a6e")
  }

  /** `int(a * (1 - ratio) + b * ratio)` with `ratio = y / height`. */
  function Blend(a: int, b: int, y: nat, height: nat): int
    requires height > 0
  {
    var ratio := y as real / height as real;
    Trunc(a as real * (1.0 - ratio) + b as real * ratio)
  }

  /** The colour of row `y`. */
  function RowColour(c1: Rgb, c2: Rgb, y: nat, height: nat): Rgb
    requires height > 0
  {
    Rgb(Blend(c1.r, c2.r, y, height), Blend(c1.g, c2.g, y, height), Blend(c1.b, c2.b, y, height))
  }

  /** `a * (1 - t) + b * t` for `0 <= t <= 1` lies between `a` and `b`. */
  lemma Interpolate(a: real, b: real, t: real)
    requires 0.0 <= t <= 1.0
    ensures RMin(a, b) <= a * (1.0 - t) + b * t <= RMax(a, b)
  {
    assert a * (1.0 - t) + b * t == a + t * (b - a);
    if a <= b {
      ScaleMonotone(0.0, t, b - a);
      ScaleMonotone(t, 1.0, b - a);
    } else {
      ScaleMonotone(0.0, t, a - b);
      ScaleMonotone(t, 1.0, a - b);
    }
  }

  /** A blended channel stays between the two end channels, and row 0 is the first colour. */
  lemma BlendBetween(a: int, b: int, y: nat, height: nat)
    requires height > 0 && y < height && 0 <= a && 0 <= b
    ensures Min(a, b) <= Blend(a, b, y, height) <= Max(a, b)
    ensures y == 0 ==> Blend(a, b, y, height) == a
  {
    var ratio := y as real / height as real;
    assert ratio * height as real == y as real;
    assert 0.0 <= ratio <= 1.0;
    var v := a as real * (1.0 - ratio) + b as real * ratio;
    Interpolate(a as real, b as real, ratio);
    assert RMin(a as real, b as real) == Min(a, b) as real && RMax(a as real, b as real) == Max(a, b) as real;
    TruncBounds(v);
  }

  /**
   * _create_gradient: a `width` by `height` image whose row `y` is the blend of the
   * two colours at `y / height`.
   */
  method CreateGradient(width: nat, height: nat, c1: Rgb, c2: Rgb) returns (img: array2<Rgb>)
    ensures fresh(img) && img.Length0 == width && img.Length1 == height
    ensures forall x, y :: 0 <= x < width && 0 <= y < height ==> img[x, y] == RowColour(c1, c2, y, height)
  {
    img := new Rgb[width, height];
    for y := 0 to height
      invariant forall x, y' :: 0 <= x < width && 0 <= y' < y ==> img[x, y'] == RowColour(c1, c2, y', height)
    {
      var colour := RowColour(c1, c2, y, height);
      for x := 0 to width
        invariant forall x', y' :: 0 <= x' < width && 0 <= y' < y ==> img[x', y'] == RowColour(c1, c2, y', height)
        invariant forall x' :: 0 <= x' < x ==> img[x', y] == colour
      {
        img[x, y] := colour;
      }
    }
  }

  // ----- narration audio -----

  /** VOICES.get(style, VOICES["default"]). */
  function Voice(audioStyle: string): (v: string)
    ensures v in {"Kore", "Puck", "Aoede"}
    ensures v == "Kore" <==> audioStyle != "bright" && audioStyle != "warm"
  {
    match audioStyle
    case "bright" => "Puck"
    case "warm" => "Aoede"
    case _ => "Kore"
  }

  const PcmBytesPerSecond: nat := 24000 * 2

  /** Whether `_synthesize` returned: it raises on a failed call and on empty PCM. */
  predicate Voiced(o: NarrationV3.SynthOutcome) {
    o.Synthesized? && o.pcmLength > 0
  }

  /**
   * What synthesize_all writes into one slide: 3.0 s and no synthesis for an empty
   * narration, the PCM length at 48000 bytes a second and the path after a synthesis,
   * 5.0 s after a failure.
   */
  function WithAudio(s: Slide, outputDir: string, o: NarrationV3.SynthOutcome): (r: Slide)
    ensures r.audioDuration.Some? && r.audioDuration.value > 0.0
    ensures s.narration.GetOr("") == "" ==> r == s.(audioDuration := Some(3.0))
    ensures s.narration.GetOr("") != "" && !Voiced(o) ==> r == s.(audioDuration := Some(5.0))
    ensures s.narration.GetOr("") != "" && Voiced(o) ==>
      r == s.(audioDuration := Some(o.pcmLength as real / PcmBytesPerSecond as real),
              audioPath := Some(outputDir + "/audio_" + Pad2Int(s.slideId) + ".wav"))
  {
    if s.narration.GetOr("") == "" then s.(audioDuration := Some(3.0))
    else if Voiced(o) then
      s.(audioDuration := Some(o.pcmLength as real / PcmBytesPerSecond as real),
         audioPath := Some(outputDir + "/audio_" + Pad2Int(s.slideId) + ".wav"))
    else s.(audioDuration := Some(5.0))
  }

  predicate AnyVoiced(slides: seq<Slide>, synth: seq<NarrationV3.SynthOutcome>)
    requires |synth| == |slides|
  {
    exists i :: 0 <= i < |slides| && slides[i].narration.GetOr("") != "" && Voiced(synth[i])
  }

  /**
   * AudioSynthesizerV2.synthesize_all: every slide gets a positive duration by the rules
   * above; the combined narration.wav is reported when some synthesis succeeded or
   * the file was already there. `synth[i]` is what the TTS call for slide `i` did.
   */
  method SynthesizeAll(slides: seq<Slide>, outputDir: string, synth: seq<NarrationV3.SynthOutcome>, combinedExisted: bool)
    returns (r: seq<Slide>, combined: Option<string>)
    requires |synth| == |slides|
    ensures |r| == |slides|
    ensures forall i :: 0 <= i < |slides| ==> r[i] == WithAudio(slides[i], outputDir, synth[i])
    ensures combined.Some? <==> AnyVoiced(slides, synth) || combinedExisted
    ensures combined.Some? ==> combined.value == outputDir + "/narration.wav"
  {
    r := [];
    var voicedCount := 0;
    for i := 0 to |slides|
      invariant |r| == i
      invariant forall j :: 0 <= j < i ==> r[j] == WithAudio(slides[j], outputDir, synth[j])
      invariant voicedCount > 0 <==> exists j :: 0 <= j < i && slides[j].narration.GetOr("") != "" && Voiced(synth[j])
    {
      var slide := slides[i];
      if slide.narration.GetOr("") == "" {
        r := r + [slide.(audioDuration := Some(3.0))];
      } else if Voiced(synth[i]) {
        var path := outputDir + "/audio_" + Pad2Int(slide.slideId) + ".wav";
        r := r + [slide.(audioDuration := Some(synth[i].pcmLength as real / PcmBytesPerSecond as real), audioPath := Some(path))];
        voicedCount := voicedCount + 1;
      } else {
        r := r + [slide.(audioDuration := Some(5.0))];
      }
    }
    combined := if voicedCount > 0 || combinedExisted then Some(outputDir + "/narration.wav") else None;
  }

  // ----- Remotion props -----

  /** The VideoConfig fields the props use. */
  datatype VideoConfig = VideoConfig(width: int, height: int, fps: int, slideDuration: real, audioPadding: real)

  const DefaultConfig: VideoConfig := VideoConfig(1920, 1080, 30, 5.0, 0.5)

  datatype PropsSlide = PropsSlide(kind: string, heading: string, subheading: string, points: seq<string>, duration: real)

  datatype Props = Props(
    slides: seq<PropsSlide>, slideImages: seq<string>, audioDataUrl: string,
    slideDuration: real, totalDuration: real, fps: int, width: int, height: int)

  /** A slide as the props show it: defaults for missing keys, the audio length plus padding. */
  function Normalize(s: Slide, cfg: VideoConfig): (p: PropsSlide)
    ensures p.duration == s.audioDuration.GetOr(cfg.slideDuration) + cfg.audioPadding
  {
    PropsSlide(s.kind.GetOr("content"), s.heading.GetOr(""), s.subheading.GetOr(""), s.points.GetOr([]),
      s.audioDuration.GetOr(cfg.slideDuration) + cfg.audioPadding)
  }

  function SumDurations(ps: seq<PropsSlide>): real {
    if ps == [] then 0.0 else SumDurations(ps[..|ps| - 1]) + ps[|ps| - 1].duration
  }

  /**
   * VideoAssemblerV2._build_props: one props slide and one image per slide, in order,
   * and a total that is the sum of the slide durations. `audioFile` is the combined
   * WAV's Base64 text when the path was given and the file exists.
   */
  method BuildProps(slides: seq<Slide>, audioFile: Option<string>, cfg: VideoConfig) returns (props: Props)
    ensures |props.slides| == |slides| && |props.slideImages| == |slides|
    ensures forall i :: 0 <= i < |slides| ==>
      props.slides[i] == Normalize(slides[i], cfg) && props.slideImages[i] == slides[i].imageBase64.GetOr("")
    ensures props.totalDuration == SumDurations(props.slides)
    ensures props.audioDataUrl == (if audioFile.Some? then "data:audio/wav;base64," + audioFile.value else "")
    ensures props.slideDuration == cfg.slideDuration && props.fps == cfg.fps
    ensures props.width == cfg.width && props.height == cfg.height
  {
    var normalized: seq<PropsSlide> := [];
    var images: seq<string> := [];
    for i := 0 to |slides|
      invariant |normalized| == i && |images| == i
      invariant forall j :: 0 <= j < i ==> normalized[j] == Normalize(slides[j], cfg) && images[j] == slides[j].imageBase64.GetOr("")
    {
      normalized := normalized + [Normalize(slides[i], cfg)];
      images := images + [slides[i].imageBase64.GetOr("")];
    }
    var audioDataUrl := if audioFile.Some? then "data:audio/wav;base64," + audioFile.value else "";
    var total := 0.0;
    for i := 0 to |normalized|
      invariant total == SumDurations(normalized[..i])
    {
      assert normalized[..i + 1][..i] == normalized[..i];
      total := total + normalized[i].duration;
    }
    assert normalized[..|normalized|] == normalized;
    props := Props(normalized, images, audioDataUrl, cfg.slideDuration, total, cfg.fps, cfg.width, cfg.height);
  }

  /** A total of durations that are each at least `lo` is at least `lo` per slide. */
  lemma {:induction false} SumDurationsAtLeast(ps: seq<PropsSlide>, lo: real)
    requires forall i :: 0 <= i < |ps| ==> ps[i].duration >= lo
    ensures SumDurations(ps) >= |ps| as real * lo
  {
    if ps != [] {
      SumDurationsAtLeast(ps[..|ps| - 1], lo);
      assert |ps| as real * lo == (|ps| - 1) as real * lo + lo;
    }
  }

  /** After the audio step every slide is shown longer than the padding, so the video is longer than n paddings. */
  lemma VoicedPropsLonger(slides: seq<Slide>, outputDir: string, synth: seq<NarrationV3.SynthOutcome>, cfg: VideoConfig, ps: seq<PropsSlide>)
    requires |synth| == |slides| && |ps| == |slides|
    requires forall i :: 0 <= i < |slides| ==> ps[i] == Normalize(WithAudio(slides[i], outputDir, synth[i]), cfg)
    ensures SumDurations(ps) >= |ps| as real * cfg.audioPadding
    ensures forall i :: 0 <= i < |ps| ==> ps[i].duration > cfg.audioPadding
  {
    SumDurationsAtLeast(ps, cfg.audioPadding);
  }
}
