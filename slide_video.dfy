/**
 * SlideVideoGenerator (src/scripts/generate_slide_video.py): the 30-second slide cap,
 * the acceptance of the narration audio, the choice and numbering of the slide images
 * copied into Remotion's public directory, the WAV check on the narration file, the
 * slide normalisation for the Remotion props, and the order of the workflow's steps,
 * including the clean-up that runs on every exit once the steps have started.
 */
module SlideVideo {
  import opened Wrappers
  import opened Text
  import Deck

  // ----- the 30-second cap -----

  const MaxVideoDuration: int := 30

  /** Python's `a // b`: the floor of `a / b`, for either sign of `b`. */
  function PyFloorDiv(a: int, b: int): (q: int)
    requires b != 0
    ensures b > 0 ==> q * b <= a < q * b + b
    ensures b < 0 ==> q * b >= a > q * b + b
  {
    if b > 0 then a / b else (-a) / (-b)
  }

  /** `max_slides = MAX_VIDEO_DURATION // slide_duration`. */
  function MaxSlides(slideDuration: int): (m: int)
    requires slideDuration != 0
    ensures slideDuration > 0 ==> m >= 0 && m * slideDuration <= MaxVideoDuration < (m + 1) * slideDuration
  {
    PyFloorDiv(MaxVideoDuration, slideDuration)
  }

  /** `target_slides = min(target_slides, max_slides)`. */
  function CapTarget(targetSlides: int, slideDuration: int): (t: int)
    requires slideDuration != 0
    ensures t <= targetSlides && t <= MaxSlides(slideDuration)
    ensures t == targetSlides || t == MaxSlides(slideDuration)
  {
    Min(targetSlides, MaxSlides(slideDuration))
  }

  /** `slides[:max_slides]` and `slide_images[:max_slides]`, applied only when there are more slides than allowed. */
  function Capped<A, B>(slides: seq<A>, images: seq<B>, slideDuration: int): (r: (seq<A>, seq<B>))
    requires slideDuration != 0
    ensures |slides| <= MaxSlides(slideDuration) ==> r == (slides, images)
    ensures |slides| > MaxSlides(slideDuration) ==> r == (SliceTo(slides, MaxSlides(slideDuration)), SliceTo(images, MaxSlides(slideDuration)))
  {
    var m := MaxSlides(slideDuration);
    if |slides| > m then (SliceTo(slides, m), SliceTo(images, m)) else (slides, images)
  }

  /** With a positive duration the kept slides are a prefix and fill at most 30 seconds, and so does the target. */
  lemma CapWithinThirtySeconds<A, B>(slides: seq<A>, images: seq<B>, targetSlides: int, slideDuration: int)
    requires slideDuration > 0
    ensures var (s, im) := Capped(slides, images, slideDuration);
      s == slides[..|s|] && im == images[..|im|] && |s| * slideDuration <= MaxVideoDuration
    ensures CapTarget(targetSlides, slideDuration) * slideDuration <= MaxVideoDuration
  {
    var m := MaxSlides(slideDuration);
    var (s, im) := Capped(slides, images, slideDuration);
    if |slides| > m {
      assert |s| == m;
    } else {
      assert |s| <= m;
      ScaleLe(|s|, m, slideDuration);
    }
    ScaleLe(CapTarget(targetSlides, slideDuration), m, slideDuration);
  }

  lemma ScaleLe(a: int, b: int, d: int)
    requires a <= b && d > 0
    ensures a * d <= b * d
  {
    assert b * d - a * d == (b - a) * d;
  }

  // ----- step 2: the narration audio -----

  const MinAudioSize: int := 10000

  /** What `generate_slide_narration` gave back, or the exception it raised. */
  datatype NarrationReply =
    | NarrationRaised(message: string)
    | NarrationReply(status: Option<string>, audio: Option<seq<bv8>>, script: Option<string>, error: Option<string>)

  /** The dict `_step2_generate_audio` returns. */
  datatype AudioStep = AudioStep(status: string, audio: Option<seq<bv8>>, script: Option<string>, sizeBytes: Option<int>, error: Option<string>)

  /** Whether the reply carries audio the step accepts: present and at least 10000 bytes. */
  predicate AudioAccepted(reply: NarrationReply) {
    reply.NarrationReply? && reply.status == Some("success")
    && reply.audio.Some? && |reply.audio.value| >= MinAudioSize
  }

  /** `_step2_generate_audio`: accept the audio, report it too small, pass the failure on, or report the exception. */
  function AcceptNarration(reply: NarrationReply): (r: AudioStep)
    ensures r.audio.Some? <==> AudioAccepted(reply)
    ensures r.status == "success" <==> AudioAccepted(reply)
    ensures AudioAccepted(reply) ==> (r.audio == reply.audio && r.sizeBytes == Some(|reply.audio.value|)
      && r.script == Some(reply.script.GetOr("")))
    ensures !AudioAccepted(reply) ==> r.status == (if reply.NarrationRaised? then "error" else "failed")
    ensures reply.NarrationReply? && reply.status == Some("success") && !AudioAccepted(reply) ==> (
      r.error == Some("Audio data too small: " + NatToString(if reply.audio.Some? then |reply.audio.value| else 0) + " bytes"))
  {
    match reply
    case NarrationRaised(message) => AudioStep("error", None, None, None, Some(message))
    case NarrationReply(status, audio, script, error) =>
      if status == Some("success") then
        if audio.Some? && |audio.value| >= MinAudioSize then
          AudioStep("success", audio, Some(script.GetOr("")), Some(|audio.value|), None)
        else
          var actual := if audio.Some? then |audio.value| else 0;
          AudioStep("failed", None, None, None, Some("Audio data too small: " + NatToString(actual) + " bytes"))
      else AudioStep("failed", None, None, None, error)
  }

  // ----- step 3: the narration file -----

  /** The bytes "RIFF" and "WAVE" of a WAV header. */
  const Riff: seq<bv8> := [0x52, 0x49, 0x46, 0x46]
  const Wave: seq<bv8> := [0x57, 0x41, 0x56, 0x45]

  /** The check on the written narration.wav: at least 10000 bytes, "RIFF" at 0..4 and "WAVE" at 8..12. */
  predicate ValidWav(data: seq<bv8>) {
    |data| >= MinAudioSize && data[..4] == Riff && data[8..12] == Wave
  }

  /** What the audio part of step 3 leaves: the file name for the props and whether the video has sound. */
  datatype AudioFile = AudioFile(file: Option<string>, hasAudio: bool)

  /**
   * Write the audio when there is any (a failed write counts as no audio), keep it
   * when it passes the check and delete it otherwise.
   */
  function SaveNarration(audio: Option<seq<bv8>>, writeOk: bool): (r: AudioFile)
    ensures r.hasAudio <==> audio.Some? && writeOk && ValidWav(audio.value)
    ensures r.file == (if r.hasAudio then Some("narration.wav") else None)
  {
    if audio.Some? && audio.value != [] && writeOk && ValidWav(audio.value) then AudioFile(Some("narration.wav"), true)
    else AudioFile(None, false)
  }

  /** Audio that step 2 accepted always passes the size check, so only its header decides whether it is kept. */
  lemma AcceptedAudioKeptIffWav(reply: NarrationReply)
    requires AudioAccepted(reply)
    ensures var a := reply.audio.value;
      SaveNarration(AcceptNarration(reply).audio, true).hasAudio <==> a[..4] == Riff && a[8..12] == Wave
  {
  }

  /** Audio step 2 refused never reaches the props: the video is silent. */
  lemma RefusedAudioSilent(reply: NarrationReply, writeOk: bool)
    requires !AudioAccepted(reply)
    ensures SaveNarration(AcceptNarration(reply).audio, writeOk) == AudioFile(None, false)
  {
  }

  // ----- step 3: the slide images -----

  /** The paths that are non-empty and exist, in order. */
  function ExistingPaths(paths: seq<string>, existing: set<string>): (r: seq<string>)
    ensures |r| <= |paths|
    ensures forall k :: 0 <= k < |r| ==> r[k] != "" && r[k] in existing
    ensures forall p :: p in paths && p != "" && p in existing ==> p in r
    decreases |paths|
  {
    if paths == [] then []
    else
      var rest := ExistingPaths(paths[..|paths| - 1], existing);
      var p := paths[|paths| - 1];
      assert forall q :: q in paths ==> q in paths[..|paths| - 1] || q == p;
      if p != "" && p in existing then rest + [p] else rest
  }

  /** The collection loop over one list of paths. */
  method CollectExisting(paths: seq<string>, existing: set<string>) returns (found: seq<string>)
    ensures found == ExistingPaths(paths, existing)
  {
    found := [];
    for i := 0 to |paths|
      invariant found == ExistingPaths(paths[..i], existing)
    {
      assert paths[..i + 1][..i] == paths[..i];
      if paths[i] != "" && paths[i] in existing {
        found := found + [paths[i]];
      }
    }
    assert paths[..|paths|] == paths;
  }

  /** The images step 3 uses: the existing slide_images, or, when none exists, the existing generated_images. */
  function AvailableImages(slideImages: seq<string>, existing: set<string>, generated: Option<seq<string>>): (r: seq<string>)
    ensures ExistingPaths(slideImages, existing) != [] ==> r == ExistingPaths(slideImages, existing)
    ensures ExistingPaths(slideImages, existing) == [] ==> r == ExistingPaths(generated.GetOr([]), existing)
  {
    var fromSlides := ExistingPaths(slideImages, existing);
    if fromSlides == [] && generated.Some? then ExistingPaths(generated.value, existing) else fromSlides
  }

  /** `slides_dir / f"slide_{k:02d}.png"`. */
  function SlideFile(slidesDir: string, k: nat): string {
    slidesDir + "/slide_" + Pad2(k) + ".png"
  }

  /** The destinations of the copies that succeed, each named after its position in `available`. */
  function CopiedFiles(available: seq<string>, copyable: set<string>, slidesDir: string): (r: seq<string>)
    ensures |r| <= |available|
    ensures forall j :: 0 <= j < |r| ==> exists k :: 1 <= k <= |available| && r[j] == SlideFile(slidesDir, k)
    decreases |available|
  {
    if available == [] then []
    else
      var n := |available|;
      var rest := CopiedFiles(available[..n - 1], copyable, slidesDir);
      if available[n - 1] in copyable then rest + [SlideFile(slidesDir, n)] else rest
  }

  /** When every copy succeeds the files are slide_01, slide_02, ... with no gap. */
  lemma {:induction false} CopiedFilesConsecutive(available: seq<string>, copyable: set<string>, slidesDir: string)
    requires forall k :: 0 <= k < |available| ==> available[k] in copyable
    ensures var r := CopiedFiles(available, copyable, slidesDir);
      |r| == |available| && forall j :: 0 <= j < |r| ==> r[j] == SlideFile(slidesDir, j + 1)
    decreases |available|
  {
    if available != [] {
      CopiedFilesConsecutive(available[..|available| - 1], copyable, slidesDir);
    }
  }

  /** The files step 3 reports. */
  datatype PublicFiles = PublicFiles(audioFile: Option<string>, slideFiles: seq<string>, slidesDir: string, hasAudio: bool)

  /** The copy loop: each image in `copyable` is copied under the number of its position. */
  method CopyImages(available: seq<string>, copyable: set<string>, slidesDir: string) returns (copied: seq<string>)
    ensures copied == CopiedFiles(available, copyable, slidesDir)
  {
    copied := [];
    for i := 0 to |available|
      invariant copied == CopiedFiles(available[..i], copyable, slidesDir)
    {
      assert available[..i + 1][..i] == available[..i];
      if available[i] in copyable {
        copied := copied + [SlideFile(slidesDir, i + 1)];
      }
    }
    assert available[..|available|] == available;
  }

  /**
   * `_step3_prepare_files`: collect the images, copy them into public/slides (a copy
   * succeeds when its source is in `copyable`) and save the narration.
   */
  method PreparePublicFiles(slideImages: seq<string>, audio: Option<seq<bv8>>, generated: Option<seq<string>>,
                            existing: set<string>, copyable: set<string>, writeOk: bool, publicDir: string)
    returns (files: PublicFiles)
    ensures files.slidesDir == publicDir + "/slides"
    ensures files.slideFiles == CopiedFiles(AvailableImages(slideImages, existing, generated), copyable, files.slidesDir)
    ensures AudioFile(files.audioFile, files.hasAudio) == SaveNarration(audio, writeOk)
  {
    var slidesDir := publicDir + "/slides";
    var available := CollectExisting(slideImages, existing);
    if available == [] && generated.Some? {
      available := CollectExisting(generated.value, existing);
    }
    var copied := CopyImages(available, copyable, slidesDir);
    var saved := SaveNarration(audio, writeOk);
    files := PublicFiles(saved.file, copied, slidesDir, saved.hasAudio);
  }

  // ----- step 4: the props -----

  /** A slide as the generator reads it; a missing key is None. */
  datatype SlideDict = SlideDict(kind: Option<string>, heading: Option<string>, subheading: Option<string>,
                                 points: Option<seq<string>>, narrationText: Option<string>)

  /** A slide as SlideVideo.tsx expects it. */
  datatype RemotionSlide = RemotionSlide(heading: string, subheading: string, points: seq<string>, kind: string,
                                         narrationText: Option<string>)

  function DefaultHeading(i: nat): string {
    "スライド " + NatToString(i + 1)
  }

  /**
   * `_normalize_slides_for_remotion`: the type follows the position only, missing
   * fields take their defaults and the narration text is copied only when non-empty.
   */
  method NormalizeSlides(slides: seq<SlideDict>) returns (r: seq<RemotionSlide>)
    ensures |r| == |slides|
    ensures forall i :: 0 <= i < |r| ==> r[i].kind == Deck.PositionType(i, |slides|)
    ensures forall i :: 0 <= i < |r| ==> (r[i].kind == "title" <==> i == 0)
    ensures forall i :: 0 <= i < |r| ==> (r[i].kind == "ending" <==> i != 0 && i == |slides| - 1)
    ensures forall i :: 0 <= i < |r| ==> (r[i].heading == slides[i].heading.GetOr(DefaultHeading(i))
      && r[i].subheading == slides[i].subheading.GetOr("") && r[i].points == slides[i].points.GetOr([]))
    ensures forall i :: 0 <= i < |r| ==> (
      r[i].narrationText == (if slides[i].narrationText.Some? && slides[i].narrationText.value != "" then slides[i].narrationText else None))
  {
    r := [];
    for i := 0 to |slides|
      invariant |r| == i
      invariant forall j :: 0 <= j < i ==> r[j].kind == Deck.PositionType(j, |slides|)
      invariant forall j :: 0 <= j < i ==> (r[j].heading == slides[j].heading.GetOr(DefaultHeading(j))
        && r[j].subheading == slides[j].subheading.GetOr("") && r[j].points == slides[j].points.GetOr([]))
      invariant forall j :: 0 <= j < i ==>
        r[j].narrationText == (if slides[j].narrationText.Some? && slides[j].narrationText.value != "" then slides[j].narrationText else None)
    {
      var s := slides[i];
      var kind := Deck.PositionType(i, |slides|);
      var narration := if s.narrationText.Some? && s.narrationText.value != "" then s.narrationText else None;
      r := r + [RemotionSlide(s.heading.GetOr(DefaultHeading(i)), s.subheading.GetOr(""), s.points.GetOr([]), kind, narration)];
    }
  }

  /** The props written to props_slides.json. */
  datatype RenderProps = RenderProps(title: string, slides: seq<RemotionSlide>, topic: string, authorName: string,
                                     audioUrl: Option<string>, slideImagePrefix: string, slideDuration: int)

  /** The props of `_step4_render_video`: titled after the first slide's heading, else "Presentation". */
  method BuildRenderProps(slides: seq<SlideDict>, topic: string, audioFile: Option<string>, slideDuration: int)
    returns (props: RenderProps)
    ensures |props.slides| == |slides|
    ensures props.title == (if slides == [] then "Presentation" else slides[0].heading.GetOr(DefaultHeading(0)))
    ensures props.topic == topic && props.audioUrl == audioFile && props.slideDuration == slideDuration
    ensures props.authorName == "if(塾) Blog" && props.slideImagePrefix == "slide_"
    ensures forall i :: 0 <= i < |slides| ==> props.slides[i].kind == Deck.PositionType(i, |slides|)
  {
    var normalized := NormalizeSlides(slides);
    var title := if normalized == [] then "Presentation" else normalized[0].heading;
    props := RenderProps(title, normalized, topic, "if(塾) Blog", audioFile, "slide_", slideDuration);
  }

  // ----- the workflow -----

  /** The observable steps of `generate_slide_video`, in the order they happen. */
  datatype Stage = CheckDependencies | GenerateSlides | GenerateAudio | PrepareFiles | WriteProps | Render | RemoveProps | Cleanup

  /** The article fields the workflow reads. */
  datatype Article = Article(topicId: Option<string>, topic: Option<string>)

  /** What `generate_slides` gave back. */
  datatype SlidesReply =
    | SlidesError(error: Option<string>)
    | SlidesOk(slides: seq<SlideDict>, slideImages: seq<string>, generatedImages: Option<seq<string>>)

  /**
   * Everything outside the program: whether Node.js answers, what the slide and
   * narration generators return, which files exist and which copies, writes and
   * renders succeed, and the step (GenerateSlides, GenerateAudio, PrepareFiles or
   * WriteProps) at which an exception escapes, if any. At GenerateAudio that is the
   * Gemini client refusing to start without an API key, before the narration call.
   */
  datatype World = World(nodeAvailable: bool, slidesReply: SlidesReply, narration: NarrationReply,
                         existing: set<string>, copyable: set<string>, audioWriteOk: bool,
                         renderOk: bool, videoExists: bool, videoSize: int, raiseAt: Option<Stage>,
                         exceptionText: string, timestamp: string, outputDir: string, publicDir: string)

  datatype Video =
    | VideoMade(path: string, resolution: string, duration: int, sizeBytes: int, hasAudio: bool, slideCount: int)
    | VideoFailed(error: string)

  /** The result dict. */
  datatype SlideVideoResult = SlideVideoResult(status: string, topic: string, generatedAt: string, targetDuration: int,
                                               error: Option<string>, narrationStatus: Option<string>, video: Option<Video>)

  /** The call either raises (division by a zero slide duration) or returns its result. */
  datatype Outcome = Raised(message: string) | Returned(result: SlideVideoResult)

  /** The topic id when present and non-empty, else the topic, else the AI-tools default. */
  function TopicOf(a: Article): (t: string)
    ensures a.topicId.Some? && a.topicId.value != "" ==> t == a.topicId.value
    ensures (a.topicId.None? || a.topicId.value == "") ==> t == a.topic.GetOr("ai_tools")
  {
    if a.topicId.Some? && a.topicId.value != "" then a.topicId.value else a.topic.GetOr("ai_tools")
  }

  /** `videos/slide_video_{timestamp}_{topic}.mp4`. */
  function VideoPath(w: World, topic: string): string {
    w.outputDir + "/videos/slide_video_" + w.timestamp + "_" + topic + ".mp4"
  }

  /**
   * Step 4 and the verdict: the props are written (unless that raises), the render
   * runs and the props file is removed whatever the render does.
   */
  method RenderStep(result: SlideVideoResult, slides: seq<SlideDict>, files: PublicFiles, slideDuration: int, w: World)
    returns (r: SlideVideoResult, steps: seq<Stage>, props: Option<RenderProps>)
    ensures w.raiseAt == Some(WriteProps) ==> steps == [WriteProps] && r.status == "error" && r.error == Some(w.exceptionText)
    ensures w.raiseAt != Some(WriteProps) ==> steps == [WriteProps, Render, RemoveProps]
    ensures props.Some? <==> w.raiseAt != Some(WriteProps)
    ensures props.Some? ==> |props.value.slides| == |slides| && props.value.audioUrl == files.audioFile
    ensures r.status == "success" <==> w.raiseAt != Some(WriteProps) && w.renderOk && w.videoExists
    ensures r.status == "success" ==> (
      r.video == Some(VideoMade(VideoPath(w, result.topic), "1920x1080", |slides| * slideDuration, w.videoSize, files.hasAudio, |slides|)))
    ensures r.status != "success" ==> r.status == "error"
    ensures r.topic == result.topic && r.generatedAt == result.generatedAt && r.targetDuration == result.targetDuration
    ensures r.narrationStatus == result.narrationStatus
  {
    if w.raiseAt == Some(WriteProps) {
      r := result.(status := "error", error := Some(w.exceptionText));
      steps := [WriteProps];
      props := None;
      return;
    }
    var p := BuildRenderProps(slides, result.topic, files.audioFile, slideDuration);
    props := Some(p);
    steps := [WriteProps, Render, RemoveProps];
    if w.renderOk && w.videoExists {
      var v := VideoMade(VideoPath(w, result.topic), "1920x1080", |slides| * slideDuration, w.videoSize, files.hasAudio, |slides|);
      r := result.(status := "success", video := Some(v));
    } else {
      r := result.(status := "error", video := Some(VideoFailed("Render failed")));
    }
  }

  /** Every render step is directly followed by the removal of the props file. */
  predicate RemoveFollowsRender(steps: seq<Stage>) {
    (forall i :: 0 <= i < |steps| && steps[i] == Render ==> i + 1 < |steps|)
    && (forall i, j :: 0 <= i && j == i + 1 < |steps| && steps[i] == Render ==> steps[j] == RemoveProps)
  }

  /** Without a render step there is nothing to follow. */
  lemma NoRenderFollows(steps: seq<Stage>)
    requires Render !in steps
    ensures RemoveFollowsRender(steps)
  {
  }

  /** A prefix without a render step keeps the ordering of the render steps after it. */
  lemma RenderAfterPrefix(prefix: seq<Stage>, rest: seq<Stage>)
    requires Render !in prefix
    requires rest == [] || rest == [WriteProps] || rest == [WriteProps, Render, RemoveProps]
    ensures RemoveFollowsRender(prefix + rest)
  {
    var t := prefix + rest;
    forall i | 0 <= i < |t| && t[i] == Render
      ensures i + 1 < |t| && t[i + 1] == RemoveProps
    {
      if i < |prefix| {
        assert false;
      }
    }
  }

  /** The body of the `try`: steps 1 to 4, stopping at a step-1 error or an escaping exception. */
  method Steps(result: SlideVideoResult, slideDuration: int, w: World)
    returns (r: SlideVideoResult, steps: seq<Stage>, props: Option<RenderProps>)
    requires slideDuration != 0
    ensures |steps| >= 1 && steps[0] == GenerateSlides && Cleanup !in steps
    ensures RemoveFollowsRender(steps)
    ensures r.status == "success" || r.status == "error"
    ensures w.slidesReply.SlidesError? ==> steps == [GenerateSlides] && r.status == "error"
    ensures w.raiseAt == Some(GenerateAudio) && w.slidesReply.SlidesOk? ==> (steps == [GenerateSlides, GenerateAudio]
      && r.status == "error" && r.error == Some(w.exceptionText) && r.narrationStatus == result.narrationStatus && props.None?)
    ensures r.status == "success" ==> w.slidesReply.SlidesOk? && w.renderOk && w.videoExists && Render in steps
    ensures r.status == "success" ==> (r.video.Some? && r.video.value.VideoMade?
      && r.video.value.slideCount == |Capped(w.slidesReply.slides, w.slidesReply.slideImages, slideDuration).0|
      && r.video.value.duration == r.video.value.slideCount * slideDuration)
    ensures props.Some? ==> (w.slidesReply.SlidesOk?
      && |props.value.slides| == |Capped(w.slidesReply.slides, w.slidesReply.slideImages, slideDuration).0|)
    ensures r.topic == result.topic && r.generatedAt == result.generatedAt && r.targetDuration == result.targetDuration
  {
    steps := [GenerateSlides];
    props := None;
    if w.raiseAt == Some(GenerateSlides) {
      r := result.(status := "error", error := Some(w.exceptionText));
      NoRenderFollows(steps);
      return;
    }
    if w.slidesReply.SlidesError? {
      r := result.(status := "error", error := w.slidesReply.error);
      NoRenderFollows(steps);
      return;
    }
    var (slides, images) := Capped(w.slidesReply.slides, w.slidesReply.slideImages, slideDuration);
    steps := steps + [GenerateAudio];
    if w.raiseAt == Some(GenerateAudio) {
      r := result.(status := "error", error := Some(w.exceptionText));
      NoRenderFollows(steps);
      return;
    }
    var audioStep := AcceptNarration(w.narration);
    var afterAudio := result.(narrationStatus := Some(audioStep.status));
    steps := steps + [PrepareFiles];
    if w.raiseAt == Some(PrepareFiles) {
      r := afterAudio.(status := "error", error := Some(w.exceptionText));
      NoRenderFollows(steps);
      return;
    }
    var generated := Some(w.slidesReply.generatedImages.GetOr([]));
    var files := PreparePublicFiles(images, audioStep.audio, generated, w.existing, w.copyable, w.audioWriteOk, w.publicDir);
    var renderSteps;
    r, renderSteps, props := RenderStep(afterAudio, slides, files, slideDuration, w);
    RenderAfterPrefix(steps, renderSteps);
    steps := steps + renderSteps;
  }

  /**
   * `generate_slide_video`: a zero duration raises before anything else; without
   * Node.js the call returns an error before any step; otherwise the steps run and
   * the clean-up of the public files follows them on every path.
   */
  method GenerateSlideVideo(article: Article, targetSlides: int, slideDuration: int, w: World)
    returns (out: Outcome, trace: seq<Stage>, props: Option<RenderProps>)
    ensures out.Raised? <==> slideDuration == 0
    ensures out.Raised? ==> trace == []
    ensures out.Returned? ==> (out.result.topic == TopicOf(article) && out.result.generatedAt == w.timestamp
      && out.result.targetDuration == CapTarget(targetSlides, slideDuration) * slideDuration)
    ensures out.Returned? && !w.nodeAvailable ==> (trace == [CheckDependencies]
      && out.result.status == "error" && out.result.error == Some("Node.js is not available"))
    ensures out.Returned? && w.nodeAvailable ==> (|trace| >= 3 && trace[0] == CheckDependencies && trace[1] == GenerateSlides
      && trace[|trace| - 1] == Cleanup && Cleanup !in trace[..|trace| - 1])
    ensures out.Returned? && w.nodeAvailable && w.slidesReply.SlidesOk? && w.raiseAt == Some(GenerateAudio) ==> (
      trace == [CheckDependencies, GenerateSlides, GenerateAudio, Cleanup]
      && out.result.status == "error" && out.result.error == Some(w.exceptionText) && props.None?)
    ensures RemoveFollowsRender(trace)
    ensures out.Returned? ==> out.result.status == "success" || out.result.status == "error"
    ensures out.Returned? && out.result.status == "success" ==> (out.result.video.Some? && out.result.video.value.VideoMade?
      && out.result.video.value.duration == out.result.video.value.slideCount * slideDuration)
    ensures slideDuration > 0 && out.Returned? && out.result.status == "success" ==> (
      out.result.video.value.duration <= MaxVideoDuration)
    ensures props.Some? ==> w.nodeAvailable && slideDuration != 0
  {
    props := None;
    if slideDuration == 0 {
      out := Raised("integer division or modulo by zero");
      trace := [];
      return;
    }
    var topic := TopicOf(article);
    var target := CapTarget(targetSlides, slideDuration);
    var result := SlideVideoResult("in_progress", topic, w.timestamp, target * slideDuration, None, None, None);
    trace := [CheckDependencies];
    if !w.nodeAvailable {
      out := Returned(result.(status := "error", error := Some("Node.js is not available")));
      return;
    }
    var r, steps;
    r, steps, props := Steps(result, slideDuration, w);
    trace := trace + steps + [Cleanup];
    assert trace[..|trace| - 1] == [CheckDependencies] + steps;
    if slideDuration > 0 && r.status == "success" {
      CapWithinThirtySeconds(w.slidesReply.slides, w.slidesReply.slideImages, targetSlides, slideDuration);
    }
    out := Returned(r);
  }
}
