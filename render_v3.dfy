/**
 * RemotionRenderer._build_props of the V3 video generator
 * (src/scripts/generate_video_v3.py): the props handed to the renderer, one entry
 * per timed slide, with the slide images inlined as data URLs.
 */
module RenderV3 {
  import opened Wrappers
  import opened Text
  import opened Deck
  import opened TimingV3

  datatype PropsSlide = PropsSlide(
    kind: string, heading: string, subheading: string, points: seq<string>,
    startFrame: int, endFrame: int, duration: real, audioBase64: Option<string>,
    subtitles: seq<Subtitle>)

  datatype Props = Props(
    title: string, topic: string, fps: int, totalFrames: int,
    slides: seq<PropsSlide>, slideImages: seq<string>)

  /** The data URL of slide `i`'s image, or "" when there are fewer images than slides. */
  function SlideImage(imageData: seq<string>, i: nat): (url: string)
    ensures i < |imageData| ==> url == "data:image/png;base64," + imageData[i]
    ensures i >= |imageData| ==> url == ""
  {
    if i < |imageData| then "data:image/png;base64," + imageData[i] else ""
  }

  /** The props slide for timing `t` at position `i` of `n`. */
  function PropsSlideFor(t: SlideTiming, i: nat, n: nat): PropsSlide {
    PropsSlide(PositionType(i, n), "スライド" + NatToString(i + 1), "", [],
      t.startFrame, t.endFrame, t.duration, t.audioBase64, t.subtitles)
  }

  /** The props' slides cover `[0, totalFrames)` exactly as the timings did. */
  predicate PropsTiled(p: Props) {
    (p.slides == [] ==> p.totalFrames == 0)
    && (p.slides != [] ==> p.slides[0].startFrame == 0 && p.slides[|p.slides| - 1].endFrame == p.totalFrames)
    && (forall i, j :: 0 <= i && j == i + 1 < |p.slides| ==> p.slides[i].endFrame == p.slides[j].startFrame)
  }

  /**
   * `_build_props`: `imageData[i]` is the base64 text of `image_paths[i]`. Every timed
   * slide gets a props entry with its frames, audio and subtitles, a type by position
   * and a numbered heading; slides past the last image get an empty image.
   */
  method BuildProps(imageData: seq<string>, timings: Timings, title: string, topic: string)
    returns (props: Props)
    ensures props.title == title && props.topic == topic
    ensures props.fps == timings.fps && props.totalFrames == timings.totalFrames
    ensures |props.slides| == |timings.slides| && |props.slideImages| == |timings.slides|
    ensures forall i :: 0 <= i < |timings.slides| ==>
      props.slides[i] == PropsSlideFor(timings.slides[i], i, |timings.slides|)
      && props.slideImages[i] == SlideImage(imageData, i)
    ensures Tiled(timings) ==> PropsTiled(props)
  {
    var slides: seq<PropsSlide> := [];
    var slideImages: seq<string> := [];
    var n := |timings.slides|;
    for i := 0 to n
      invariant |slides| == i && |slideImages| == i
      invariant forall j :: 0 <= j < i ==>
        slides[j] == PropsSlideFor(timings.slides[j], j, n) && slideImages[j] == SlideImage(imageData, j)
    {
      var image := if i < |imageData| then "data:image/png;base64," + imageData[i] else "";
      slideImages := slideImages + [image];
      var timing := timings.slides[i];
      slides := slides + [PropsSlide(PositionType(i, n), "スライド" + NatToString(i + 1), "", [],
        timing.startFrame, timing.endFrame, timing.duration, timing.audioBase64, timing.subtitles)];
    }
    props := Props(title, topic, timings.fps, timings.totalFrames, slides, slideImages);
    TilingCarriesOver(timings, props);
  }

  /** Props that copy each slide's frames from tiled timings are tiled too. */
  lemma TilingCarriesOver(timings: Timings, props: Props)
    requires props.totalFrames == timings.totalFrames && |props.slides| == |timings.slides|
    requires forall i :: 0 <= i < |timings.slides| ==> (props.slides[i].startFrame == timings.slides[i].startFrame
      && props.slides[i].endFrame == timings.slides[i].endFrame)
    ensures Tiled(timings) ==> PropsTiled(props)
  {
    if Tiled(timings) {
      forall i, j | 0 <= i && j == i + 1 < |props.slides|
        ensures props.slides[i].endFrame == props.slides[j].startFrame
      {
        assert timings.slides[i].endFrame == timings.slides[j].startFrame;
      }
    }
  }

  /** The first props slide is the title, the last of two or more is the ending. */
  lemma PropsTypes(t: SlideTiming, i: nat, n: nat)
    requires i < n
    ensures PropsSlideFor(t, i, n).kind == "title" <==> i == 0
    ensures PropsSlideFor(t, i, n).kind == "ending" <==> 0 < i == n - 1
  {
  }
}
