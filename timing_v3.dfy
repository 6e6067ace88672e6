/**
 * TimingCalculator of the V3 video generator (src/scripts/generate_video_v3.py):
 * turns per-slide audio results into frame ranges that tile the video from
 * frame 0, and splits each narration into subtitle segments that tile its slide.
 */
module TimingV3 {
  import opened Wrappers
  import opened Text
  import opened NarrationV3

  /** The timing-related fields of VideoConfig. */
  datatype VideoConfig = VideoConfig(
    fps: int, defaultSlideDuration: real, minSlideDuration: real,
    maxSlideDuration: real, audioPadding: real)

  const DefaultConfig: VideoConfig := VideoConfig(30, 5.0, 3.0, 30.0, 0.5)

  /** Python truthiness of an optional number: present and non-zero. */
  predicate Truthy(d: Option<real>) {
    d.Some? && d.value != 0.0
  }

  /**
   * The seconds a slide is shown: the audio length plus the padding when the audio
   * result has a truthy duration, the default otherwise, clamped as
   * `max(min, min(max, d))`.
   */
  function SlideDuration(a: AudioResult, cfg: VideoConfig): (d: real)
    ensures cfg.minSlideDuration <= cfg.maxSlideDuration ==>
      cfg.minSlideDuration <= d <= cfg.maxSlideDuration
    ensures d >= cfg.minSlideDuration
    ensures Truthy(a.duration)
      && cfg.minSlideDuration <= a.duration.value + cfg.audioPadding <= cfg.maxSlideDuration
      ==> d == a.duration.value + cfg.audioPadding
    ensures !Truthy(a.duration)
      && cfg.minSlideDuration <= cfg.defaultSlideDuration <= cfg.maxSlideDuration
      ==> d == cfg.defaultSlideDuration
  {
    var raw := if Truthy(a.duration) then a.duration.value + cfg.audioPadding else cfg.defaultSlideDuration;
    RMax(cfg.minSlideDuration, RMin(cfg.maxSlideDuration, raw))
  }

  /** `int(duration * fps)`. */
  function Frames(a: AudioResult, cfg: VideoConfig, fps: int): int {
    Trunc(SlideDuration(a, cfg) * fps as real)
  }

  /** The frame at which slide `k` starts: the frames of all slides before it. */
  function FramesBefore(audio: seq<AudioResult>, k: nat, cfg: VideoConfig, fps: int): int
    requires k <= |audio|
  {
    if k == 0 then 0 else FramesBefore(audio, k - 1, cfg, fps) + Frames(audio[k - 1], cfg, fps)
  }

  // ----- subtitles -----

  datatype Subtitle = Subtitle(text: string, startFrame: int, endFrame: int)

  const MaxSubtitleChars: nat := 30

  /** The separators of `re.split(r'[。、！？]', text)`. */
  predicate IsSentenceBreak(c: char) {
    c == '。' || c == '、' || c == '！' || c == '？'
  }

  /** The pieces with surrounding whitespace removed, the empty ones dropped. */
  function Sentences(pieces: seq<string>): (r: seq<string>)
    ensures |r| <= |pieces|
    ensures forall i :: 0 <= i < |r| ==> r[i] != [] && !IsSpace(r[i][0])
  {
    if pieces == [] then []
    else (if AllSpace(pieces[0]) then [] else [Strip(pieces[0])]) + Sentences(pieces[1..])
  }

  /** A sentence as shown: cut to 30 characters with "..." appended when longer. */
  function Display(s: string): (r: string)
    ensures |r| <= MaxSubtitleChars + 3
    ensures |s| <= MaxSubtitleChars ==> r == s
    ensures |s| > MaxSubtitleChars ==> r == s[..MaxSubtitleChars] + "..."
  {
    if |s| > MaxSubtitleChars then s[..MaxSubtitleChars] + "..." else s
  }

  /**
   * The segments for sentences `ss` from frame `current` on: each `per` frames long
   * except the last, which ends at `last`.
   */
  function Segments(ss: seq<string>, current: int, per: int, last: int): (r: seq<Subtitle>)
    requires ss != []
    ensures |r| == |ss|
    ensures r[0].startFrame == current && r[|r| - 1].endFrame == last
    ensures forall i :: 0 <= i < |r| ==> r[i].text == Display(ss[i])
    ensures forall i :: 0 <= i < |r| ==> r[i].startFrame == current + i * per
    ensures forall i :: 0 <= i < |r| - 1 ==> r[i].endFrame == current + (i + 1) * per
  {
    seq(|ss|, i requires 0 <= i < |ss| =>
      Subtitle(Display(ss[i]), current + i * per, if i == |ss| - 1 then last else current + (i + 1) * per))
  }

  /** Each segment but the last is `per` frames long and ends where the next one starts. */
  lemma SegmentsContiguous(ss: seq<string>, current: int, per: int, last: int)
    requires ss != []
    ensures var r := Segments(ss, current, per, last);
      (forall i, j :: 0 <= i && j == i + 1 < |r| ==> r[i].endFrame == r[j].startFrame)
      && (forall i :: 0 <= i < |r| - 1 ==> r[i].endFrame == r[i].startFrame + per)
  {
    var r := Segments(ss, current, per, last);
    forall i | 0 <= i < |r| - 1
      ensures r[i].endFrame == r[i].startFrame + per && r[i].endFrame == r[i + 1].startFrame
    {
      assert (i + 1) * per == i * per + per;
    }
  }

  lemma MulMonotone(a: int, b: int, c: int)
    requires 0 <= a <= b && c >= 0
    ensures 0 <= a * c <= b * c
  {
    assert b * c - a * c == (b - a) * c;
  }

  /** When all full-length segments fit before `last`, every segment lies inside `[current, last]`. */
  lemma SegmentsWithin(ss: seq<string>, current: int, per: int, last: int)
    requires ss != [] && per >= 0 && current + (|ss| - 1) * per <= last
    ensures forall i :: 0 <= i < |ss| ==>
      current <= Segments(ss, current, per, last)[i].startFrame
      <= Segments(ss, current, per, last)[i].endFrame <= last
  {
    var r := Segments(ss, current, per, last);
    forall i | 0 <= i < |ss|
      ensures current <= r[i].startFrame <= r[i].endFrame <= last
    {
      MulMonotone(i, |ss| - 1, per);
      if i < |ss| - 1 {
        MulMonotone(i + 1, |ss| - 1, per);
      }
    }
  }

  /** `n - 1` segments of `total // n` frames fit in `total` frames. */
  lemma FloorDivFits(total: int, n: nat)
    requires total >= 0 && n >= 1
    ensures 0 <= total / n && (n - 1) * (total / n) <= total
  {
    var per := total / n;
    assert total == n * per + total % n;
    assert (n - 1) * per == n * per - per;
  }

  /**
   * What `_generate_subtitles(text, start, total)` returns: nothing for a blank text;
   * the first 60 characters over the whole range when no sentence survives; otherwise
   * one segment per sentence, each `total // n` frames long except the last, which
   * ends at `start + total`.
   */
  function SubtitleSpec(text: string, start: int, total: int): (r: seq<Subtitle>)
    ensures AllSpace(text) <==> r == []
    ensures r != [] ==> r[0].startFrame == start && r[|r| - 1].endFrame == start + total
    ensures forall i, j :: 0 <= i && j == i + 1 < |r| ==> r[i].endFrame == r[j].startFrame
    ensures forall i :: 0 <= i < |r| ==> |r[i].text| <= 2 * MaxSubtitleChars
  {
    if AllSpace(text) then []
    else
      var ss := Sentences(Split(text, IsSentenceBreak));
      if ss == [] then [Subtitle(Take(text, 2 * MaxSubtitleChars), start, start + total)]
      else
        SegmentsContiguous(ss, start, total / |ss|, start + total);
        Segments(ss, start, total / |ss|, start + total)
  }

  /** The segments are contiguous, non-empty-ranged and inside the slide whenever the slide has frames. */
  lemma SubtitlesWithinSlide(text: string, start: int, total: int)
    requires total >= 0
    ensures var r := SubtitleSpec(text, start, total);
      forall i :: 0 <= i < |r| ==> start <= r[i].startFrame <= r[i].endFrame <= start + total
  {
    var r := SubtitleSpec(text, start, total);
    if !AllSpace(text) {
      var ss := Sentences(Split(text, IsSentenceBreak));
      if ss == [] {
        assert r == [Subtitle(Take(text, 2 * MaxSubtitleChars), start, start + total)];
      } else {
        var per := total / |ss|;
        FloorDivFits(total, |ss|);
        SegmentsWithin(ss, start, per, start + total);
        assert r == Segments(ss, start, per, start + total);
      }
    }
  }

  /** TimingCalculator._generate_subtitles. */
  method GenerateSubtitles(text: string, startFrame: int, totalFrames: int) returns (subs: seq<Subtitle>)
    ensures subs == SubtitleSpec(text, startFrame, totalFrames)
  {
    if AllSpace(text) {
      return [];
    }
    var sentences := Sentences(Split(text, IsSentenceBreak));
    if sentences == [] {
      return [Subtitle(Take(text, 2 * MaxSubtitleChars), startFrame, startFrame + totalFrames)];
    }
    subs := EmitSegments(sentences, startFrame, totalFrames);
  }

  /** The per-sentence loop of `_generate_subtitles`. */
  method EmitSegments(sentences: seq<string>, startFrame: int, totalFrames: int) returns (subs: seq<Subtitle>)
    requires sentences != []
    ensures subs == Segments(sentences, startFrame, totalFrames / |sentences|, startFrame + totalFrames)
  {
    var framesPerSegment := totalFrames / |sentences|;
    ghost var spec := Segments(sentences, startFrame, framesPerSegment, startFrame + totalFrames);
    var current := startFrame;
    subs := [];
    var i := 0;
    while i < |sentences|
      invariant 0 <= i <= |sentences| && |subs| == i
      invariant forall j :: 0 <= j < i ==> subs[j] == spec[j]
      invariant i < |sentences| ==> current == startFrame + i * framesPerSegment
    {
      var end := current + framesPerSegment;
      if i == |sentences| - 1 {
        end := startFrame + totalFrames;
      } else {
        assert (i + 1) * framesPerSegment == i * framesPerSegment + framesPerSegment;
      }
      subs := subs + [Subtitle(Display(sentences[i]), current, end)];
      current := end;
      i := i + 1;
    }
    assert subs == spec;
  }

  // ----- slide timings -----

  datatype SlideTiming = SlideTiming(
    index: nat, slideId: int, startFrame: int, endFrame: int, duration: real,
    audioBase64: Option<string>, subtitles: seq<Subtitle>)

  datatype Timings = Timings(fps: int, totalFrames: int, slides: seq<SlideTiming>)

  /** The slides tile `[0, totalFrames)`: no gap, no overlap, nothing after the last slide. */
  predicate Tiled(t: Timings) {
    (t.slides == [] ==> t.totalFrames == 0)
    && (t.slides != [] ==> t.slides[0].startFrame == 0 && t.slides[|t.slides| - 1].endFrame == t.totalFrames)
    && (forall i, j :: 0 <= i && j == i + 1 < |t.slides| ==> t.slides[i].endFrame == t.slides[j].startFrame)
  }

  /** The entry for slide `i`: its id defaults to `i + 1`, its frames follow the slides before it. */
  function SlideTimingAt(audio: seq<AudioResult>, i: nat, cfg: VideoConfig, fps: int): (t: SlideTiming)
    requires i < |audio|
    ensures t.startFrame == FramesBefore(audio, i, cfg, fps)
    ensures t.endFrame == FramesBefore(audio, i + 1, cfg, fps)
  {
    var start := FramesBefore(audio, i, cfg, fps);
    var n := Frames(audio[i], cfg, fps);
    SlideTiming(i, audio[i].slideId.GetOr(i + 1), start, start + n, SlideDuration(audio[i], cfg),
      audio[i].audioBase64, SubtitleSpec(audio[i].narration.GetOr(""), start, n))
  }

  /** The frames the slides span, summed in order. */
  function Spans(ss: seq<SlideTiming>): int {
    if ss == [] then 0 else Spans(ss[..|ss| - 1]) + (ss[|ss| - 1].endFrame - ss[|ss| - 1].startFrame)
  }

  lemma {:induction false} SpansPrefix(ss: seq<SlideTiming>, k: nat)
    requires 1 <= k <= |ss| && ss[0].startFrame == 0
    requires forall i, j :: 0 <= i && j == i + 1 < |ss| ==> ss[i].endFrame == ss[j].startFrame
    ensures Spans(ss[..k]) == ss[k - 1].endFrame
  {
    assert ss[..k][..k - 1] == ss[..k - 1];
    if k > 1 {
      SpansPrefix(ss, k - 1);
    }
  }

  /** In a tiled timeline `totalFrames` is the sum of the slides' frame counts. */
  lemma TiledTotalIsSum(t: Timings)
    requires Tiled(t)
    ensures Spans(t.slides) == t.totalFrames
  {
    if t.slides != [] {
      SpansPrefix(t.slides, |t.slides|);
      assert t.slides[..|t.slides|] == t.slides;
    }
  }

  /** Timings built slide by slide from the running frame total tile the video. */
  lemma TimingsTiled(audio: seq<AudioResult>, cfg: VideoConfig, fps: int, t: Timings)
    requires |t.slides| == |audio| && t.totalFrames == FramesBefore(audio, |audio|, cfg, fps)
    requires forall i :: 0 <= i < |audio| ==> t.slides[i] == SlideTimingAt(audio, i, cfg, fps)
    ensures Tiled(t)
  {
    forall i, j | 0 <= i && j == i + 1 < |t.slides|
      ensures t.slides[i].endFrame == t.slides[j].startFrame
    {
      assert t.slides[i].endFrame == FramesBefore(audio, i + 1, cfg, fps);
    }
  }

  /**
   * TimingCalculator.calculate: one entry per audio result, in order; the first starts
   * at frame 0, each ends where the next starts, and the last ends at `totalFrames`.
   */
  method Calculate(audio: seq<AudioResult>, fps: int, cfg: VideoConfig) returns (t: Timings)
    ensures t.fps == fps && |t.slides| == |audio|
    ensures t.totalFrames == FramesBefore(audio, |audio|, cfg, fps)
    ensures forall i :: 0 <= i < |audio| ==> t.slides[i] == SlideTimingAt(audio, i, cfg, fps)
    ensures Tiled(t)
  {
    var slides: seq<SlideTiming> := [];
    var currentFrame := 0;
    for i := 0 to |audio|
      invariant |slides| == i && currentFrame == FramesBefore(audio, i, cfg, fps)
      invariant forall j :: 0 <= j < i ==> slides[j] == SlideTimingAt(audio, j, cfg, fps)
    {
      var a := audio[i];
      var duration := SlideDuration(a, cfg);
      var durationFrames := Frames(a, cfg, fps);
      var subtitles := GenerateSubtitles(a.narration.GetOr(""), currentFrame, durationFrames);
      var timing := SlideTiming(i, a.slideId.GetOr(i + 1), currentFrame,
        currentFrame + durationFrames, duration, a.audioBase64, subtitles);
      assert timing == SlideTimingAt(audio, i, cfg, fps);
      slides := slides + [timing];
      currentFrame := currentFrame + durationFrames;
    }
    t := Timings(fps, currentFrame, slides);
    TimingsTiled(audio, cfg, fps, t);
  }

  // ----- properties -----

  /** `int` is monotone on non-negative floats. */
  lemma ScaledTruncBounds(lo: real, d: real, hi: real, f: real)
    requires 0.0 <= lo <= d <= hi && f >= 0.0
    ensures Trunc(lo * f) <= Trunc(d * f) <= Trunc(hi * f)
  {
    ScaleMonotone(0.0, lo, f);
    ScaleMonotone(lo, d, f);
    ScaleMonotone(d, hi, f);
    TruncMonotone(lo * f, d * f);
    TruncMonotone(d * f, hi * f);
  }

  /** With a non-negative frame rate every slide gets between `int(min*fps)` and `int(max*fps)` frames. */
  lemma FramesBounds(a: AudioResult, cfg: VideoConfig, fps: int)
    requires fps >= 0 && 0.0 <= cfg.minSlideDuration <= cfg.maxSlideDuration
    ensures Trunc(cfg.minSlideDuration * fps as real) <= Frames(a, cfg, fps) <= Trunc(cfg.maxSlideDuration * fps as real)
  {
    ScaledTruncBounds(cfg.minSlideDuration, SlideDuration(a, cfg), cfg.maxSlideDuration, fps as real);
  }

  /** Hence the first `k` slides take between `k*lo` and `k*hi` frames, for the per-slide bounds `lo`, `hi`. */
  lemma {:induction false} TotalFramesBounds(audio: seq<AudioResult>, k: nat, cfg: VideoConfig, fps: int, lo: int, hi: int)
    requires k <= |audio|
    requires fps >= 0 && 0.0 <= cfg.minSlideDuration <= cfg.maxSlideDuration
    requires lo == Trunc(cfg.minSlideDuration * fps as real) && hi == Trunc(cfg.maxSlideDuration * fps as real)
    ensures k * lo <= FramesBefore(audio, k, cfg, fps) <= k * hi
  {
    if k > 0 {
      TotalFramesBounds(audio, k - 1, cfg, fps, lo, hi);
      FramesBounds(audio[k - 1], cfg, fps);
      assert k * lo == (k - 1) * lo + lo && k * hi == (k - 1) * hi + hi;
    }
  }

  /** Under the default configuration every slide lasts 3 to 30 seconds: 90 to 900 frames. */
  lemma DefaultFramesBounds(audio: seq<AudioResult>)
    ensures forall i :: 0 <= i < |audio| ==> 90 <= Frames(audio[i], DefaultConfig, 30) <= 900
    ensures 90 * |audio| <= FramesBefore(audio, |audio|, DefaultConfig, 30) <= 900 * |audio|
  {
    forall i | 0 <= i < |audio| {
      FramesBounds(audio[i], DefaultConfig, 30);
    }
    TotalFramesBounds(audio, |audio|, DefaultConfig, 30, 90, 900);
  }

  /** Starts never decrease along the video when the frame rate is non-negative. */
  lemma {:induction false} StartsMonotone(audio: seq<AudioResult>, j: nat, k: nat, cfg: VideoConfig, fps: int)
    requires j <= k <= |audio|
    requires fps >= 0 && 0.0 <= cfg.minSlideDuration <= cfg.maxSlideDuration
    ensures FramesBefore(audio, j, cfg, fps) <= FramesBefore(audio, k, cfg, fps)
  {
    if j < k {
      StartsMonotone(audio, j, k - 1, cfg, fps);
      FramesBounds(audio[k - 1], cfg, fps);
      assert 0 <= Trunc(cfg.minSlideDuration * fps as real);
    }
  }

  /**
   * Fed by the TTS step, every slide shows its audio plus 0.5 s, clamped: the
   * configured 5.0 s default never applies, and a slide whose synthesis failed
   * lasts 5.5 s (165 frames), not 5.0 s.
   */
  lemma TtsFedDurations(narrations: seq<Narration>, synth: seq<SynthOutcome>, i: nat)
    requires |synth| == |narrations| && i < |narrations|
    ensures var a := AudioFor(narrations[i], i, synth[i]);
      SlideDuration(a, DefaultConfig) == RMax(3.0, RMin(30.0, a.duration.value + 0.5))
    ensures var a := AudioFor(narrations[i], i, synth[i]);
      a.audioPath.None? ==> SlideDuration(a, DefaultConfig) == 5.5 && Frames(a, DefaultConfig, 30) == 165
  {
    var a := AudioFor(narrations[i], i, synth[i]);
    if a.audioPath.None? {
      assert 5.5 * 30 as real == 165.0;
    }
  }
}
