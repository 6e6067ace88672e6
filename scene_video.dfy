/**
 * The scene video workflow of video_generator/main.py: the audio and image replies
 * of the generation client, the scene_NN file names the workflow assigns, the
 * placeholder image's text lines, the scene clip durations, and the page-text
 * extractor of generate_from_url.
 */
module SceneVideo {
  import opened Wrappers
  import opened Text
  import opened Html
  import MarpVideo

  /** A scene of the script; the workflow sets its audio and image in place. */
  class Scene {
    var sceneId: int
    var narration: string
    var imagePrompt: string
    var overlayText: string
    var audioPath: Option<string>
    var audioDuration: real
    var imagePath: Option<string>

    /** A scene as the script step creates it: no audio, duration 0, no image. */
    constructor(sceneId: int, narration: string, imagePrompt: string, overlayText: string)
      ensures this.sceneId == sceneId && this.narration == narration
      ensures this.imagePrompt == imagePrompt && this.overlayText == overlayText
      ensures audioPath == None && audioDuration == 0.0 && imagePath == None
    {
      this.sceneId := sceneId;
      this.narration := narration;
      this.imagePrompt := imagePrompt;
      this.overlayText := overlayText;
      audioPath := None;
      audioDuration := 0.0;
      imagePath := None;
    }
  }

  /** The script step builds a new Scene for every scene, so no object appears twice. */
  predicate Distinct(scenes: seq<Scene>) {
    forall i, j :: 0 <= i < j < |scenes| ==> scenes[i] != scenes[j]
  }

  // ----- replies of the generation client -----

  /** A part of a model reply: inline bytes, or anything else. */
  datatype Part = InlineData(data: seq<bv8>) | OtherPart

  /** A model call either raises or returns the parts of its first candidate (none when there is no candidate). */
  datatype Reply = Raised | Parts(parts: seq<Part>)

  /** The first part carrying inline data, which is the one both generators use. */
  function FirstInline(parts: seq<Part>): (r: Option<nat>)
    ensures r.Some? ==> (r.value < |parts| && parts[r.value].InlineData?
      && forall k :: 0 <= k < r.value ==> parts[k].OtherPart?)
    ensures r.None? ==> forall k :: 0 <= k < |parts| ==> parts[k].OtherPart?
  {
    if parts == [] then None
    else if parts[0].InlineData? then Some(0)
    else match FirstInline(parts[1..])
      case None => None
      case Some(k) => Some(k + 1)
  }

  /** The search loop over the reply's parts, stopping at the first inline data. */
  method FindInline(parts: seq<Part>) returns (found: Option<nat>)
    ensures found == FirstInline(parts)
  {
    found := None;
    var i := 0;
    while i < |parts|
      invariant i <= |parts|
      invariant forall k :: 0 <= k < i ==> parts[k].OtherPart?
    {
      if parts[i].InlineData? {
        found := Some(i);
        FirstInlineIs(parts, i);
        return;
      }
      i := i + 1;
    }
    FirstInlineNone(parts);
  }

  lemma {:induction false} FirstInlineIs(parts: seq<Part>, i: nat)
    requires i < |parts| && parts[i].InlineData?
    requires forall k :: 0 <= k < i ==> parts[k].OtherPart?
    ensures FirstInline(parts) == Some(i)
    decreases i
  {
    if i > 0 {
      FirstInlineIs(parts[1..], i - 1);
    }
  }

  lemma {:induction false} FirstInlineNone(parts: seq<Part>)
    requires forall k :: 0 <= k < |parts| ==> parts[k].OtherPart?
    ensures FirstInline(parts) == None
    decreases |parts|
  {
    if parts != [] {
      FirstInlineNone(parts[1..]);
    }
  }

  /** The PCM a reply yields, when `generate_audio` accepts it: the data of the first inline part, if that is not empty. */
  function ReplyAudio(reply: Reply): (pcm: Option<seq<bv8>>)
    ensures pcm.Some? ==> pcm.value != []
  {
    if reply.Parts? && FirstInline(reply.parts).Some? && reply.parts[FirstInline(reply.parts).value].data != []
    then Some(reply.parts[FirstInline(reply.parts).value].data) else None
  }

  /** What `generate_audio` gives back: the audio length in seconds, or the error it raises. */
  datatype AudioResult = AudioSeconds(pcm: seq<bv8>, seconds: real) | AudioError(message: string)

  /**
   * `generate_audio`: the first inline data is the PCM; no data, or empty data,
   * raises "No audio data in response"; a failed call re-raises.
   */
  method GenerateAudio(reply: Reply) returns (r: AudioResult)
    ensures r.AudioSeconds? <==> ReplyAudio(reply).Some?
    ensures r.AudioSeconds? ==> (r.pcm == ReplyAudio(reply).value
      && r.seconds == MarpVideo.PcmSeconds(|r.pcm|) && r.seconds > 0.0)
    ensures r.AudioError? && reply.Parts? ==> r.message == "No audio data in response"
  {
    if reply.Raised? {
      return AudioError("model call failed");
    }
    var found := FindInline(reply.parts);
    if found.None? || reply.parts[found.value].data == [] {
      return AudioError("No audio data in response");
    }
    var pcm := reply.parts[found.value].data;
    r := AudioSeconds(pcm, MarpVideo.PcmSeconds(|pcm|));
  }

  /** A reply that carries no inline image: `generate_image` then returns False. */
  predicate NoImage(reply: Reply) {
    reply.Parts? && FirstInline(reply.parts).None?
  }

  /** What `generate_image` leaves at the output path. */
  datatype ImageFile = Saved(data: seq<bv8>) | Placeholder(text: string) | NoFile

  /**
   * What `generate_image` leaves at the output path: the first inline image is
   * saved; a reply without one writes nothing; any exception (the call, or Pillow
   * failing to open the bytes, given as `decodes`) writes a placeholder.
   */
  function ReplyImage(prompt: string, reply: Reply, decodes: bool): ImageFile {
    if reply.Raised? then Placeholder(prompt)
    else match FirstInline(reply.parts)
      case None => NoFile
      case Some(i) => if decodes then Saved(reply.parts[i].data) else Placeholder(prompt)
  }

  /** The three outcomes of `generate_image` and the replies that lead to each. */
  lemma ReplyImageOutcomes(prompt: string, reply: Reply, decodes: bool)
    ensures ReplyImage(prompt, reply, decodes).NoFile? <==> NoImage(reply)
    ensures ReplyImage(prompt, reply, decodes).Saved? <==> reply.Parts? && FirstInline(reply.parts).Some? && decodes
    ensures ReplyImage(prompt, reply, decodes).Saved? ==>
      reply.Parts? && ReplyImage(prompt, reply, decodes).data == reply.parts[FirstInline(reply.parts).value].data
    ensures ReplyImage(prompt, reply, decodes).Placeholder? ==> ReplyImage(prompt, reply, decodes).text == prompt
    ensures reply.Parts? && FirstInline(reply.parts).Some? ==> reply.parts[FirstInline(reply.parts).value].InlineData?
  {
  }

  /**
   * `generate_image`: True, with the file written, unless the reply carries no
   * inline image.
   */
  method GenerateImage(prompt: string, reply: Reply, decodes: bool) returns (ok: bool, file: ImageFile)
    ensures file == ReplyImage(prompt, reply, decodes)
    ensures ok <==> !NoImage(reply)
  {
    if reply.Raised? {
      return true, Placeholder(prompt);
    }
    var found := FindInline(reply.parts);
    if found.None? {
      return false, NoFile;
    }
    if !decodes {
      return true, Placeholder(prompt);
    }
    ok, file := true, Saved(reply.parts[found.value].data);
  }

  // ----- the placeholder image -----

  const LineWidth: nat := 40
  const PlaceholderChars: nat := 200

  /** The first 200 characters of the text cut into consecutive pieces of 40. */
  function PlaceholderLines(text: string): (lines: seq<string>)
    ensures |lines| <= 5
    ensures forall k :: 0 <= k < |lines| ==> 0 < |lines[k]| <= LineWidth
  {
    var n := Min(|text|, PlaceholderChars);
    seq((n + LineWidth - 1) / LineWidth,
        k requires 0 <= k < (n + LineWidth - 1) / LineWidth => text[k * LineWidth .. Min(k * LineWidth + LineWidth, n)])
  }

  /** The 40-character chunks of `s` from position `from` on: a reference definition by recursion. */
  function ChunksFrom(s: string, from: nat): seq<string>
    requires from <= |s|
    decreases |s| - from
  {
    if from == |s| then [] else [s[from .. Min(from + LineWidth, |s|)]] + ChunksFrom(s, Min(from + LineWidth, |s|))
  }

  lemma {:induction false} ChunksFromConcat(s: string, from: nat)
    requires from <= |s|
    ensures Concat(ChunksFrom(s, from)) == s[from..]
    decreases |s| - from
  {
    if from < |s| {
      var next := Min(from + LineWidth, |s|);
      ChunksFromConcat(s, next);
      assert ChunksFrom(s, from)[1..] == ChunksFrom(s, next);
      assert s[from..] == s[from..next] + s[next..];
    }
  }

  /** Chunk `k` from `from` starts at `from + 40k`, and there are as many chunks as the comprehension's range has steps. */
  lemma {:induction false} ChunksFromIndex(s: string, from: nat, k: nat)
    requires from <= |s|
    ensures |ChunksFrom(s, from)| == (|s| - from + LineWidth - 1) / LineWidth
    ensures k < |ChunksFrom(s, from)| ==> (from + k * LineWidth < |s|
      && ChunksFrom(s, from)[k] == s[from + k * LineWidth .. Min(from + k * LineWidth + LineWidth, |s|)])
    decreases |s| - from
  {
    if from < |s| {
      var next := Min(from + LineWidth, |s|);
      if next < |s| {
        if k > 0 {
          ChunksFromIndex(s, next, k - 1);
          assert from + k * LineWidth == next + (k - 1) * LineWidth;
        } else {
          ChunksFromIndex(s, next, 0);
        }
      }
    }
  }

  /** The placeholder lines are the 40-character chunks of `text[:200]`, so they spell it out. */
  lemma PlaceholderLinesSpellPrefix(text: string)
    ensures Concat(PlaceholderLines(text)) == Take(text, PlaceholderChars)
  {
    var t := Take(text, PlaceholderChars);
    var n := Min(|text|, PlaceholderChars);
    var lines := PlaceholderLines(text);
    var chunks := ChunksFrom(t, 0);
    ChunksFromIndex(t, 0, 0);
    assert |t| == n && |chunks| == |lines|;
    forall k | 0 <= k < |lines|
      ensures lines[k] == chunks[k]
    {
      ChunksFromIndex(t, 0, k);
      var a, b := k * LineWidth, Min(k * LineWidth + LineWidth, n);
      assert lines[k] == text[a..b];
      assert chunks[k] == t[a..b];
      assert t[a..b] == text[a..b];
    }
    assert lines == chunks;
    ChunksFromConcat(t, 0);
  }

  // ----- scene durations -----

  const ScenePadding: real := 0.5

  /**
   * `create_scene_clip`'s duration: the audio clip's length when a clip was loaded,
   * else the scene's recorded duration, plus the padding, and never under 3 seconds.
   */
  function SceneDuration(clipLength: Option<real>, audioDuration: real, padding: real): (d: real)
    ensures d >= 3.0
    ensures clipLength.Some? ==> d == RMax(clipLength.value + padding, 3.0)
    ensures clipLength.None? ==> d == RMax(audioDuration + padding, 3.0)
  {
    var base := if clipLength.Some? then clipLength.value else audioDuration;
    RMax(base + padding, 3.0)
  }

  /** The clip loop of `create_final_video`: an audio clip is loaded when the scene's audio file exists. */
  method SceneDurations(scenes: seq<Scene>, audioFiles: map<string, real>, padding: real) returns (durations: seq<real>)
    ensures |durations| == |scenes|
    ensures forall k :: 0 <= k < |scenes| ==> durations[k] >= 3.0
    ensures forall k :: 0 <= k < |scenes| ==>
      durations[k] == SceneDuration(LoadedClip(scenes[k].audioPath, audioFiles), scenes[k].audioDuration, padding)
  {
    durations := [];
    for i := 0 to |scenes|
      invariant |durations| == i
      invariant forall k :: 0 <= k < i ==>
        durations[k] == SceneDuration(LoadedClip(scenes[k].audioPath, audioFiles), scenes[k].audioDuration, padding)
    {
      var scene := scenes[i];
      var clip := LoadedClip(scene.audioPath, audioFiles);
      durations := durations + [SceneDuration(clip, scene.audioDuration, padding)];
    }
  }

  /** The length of the scene's audio file, when it has a path and the file exists. */
  function LoadedClip(audioPath: Option<string>, audioFiles: map<string, real>): (r: Option<real>)
    ensures r.Some? <==> audioPath.Some? && audioPath.value in audioFiles
  {
    if audioPath.Some? && audioPath.value in audioFiles then Some(audioFiles[audioPath.value]) else None
  }

  // ----- the workflow -----

  /** `scene_{id:02d}` plus an extension, in a directory. */
  function ScenePath(dir: string, sceneId: int, ext: string): string {
    dir + "/scene_" + Pad2Int(sceneId) + ext
  }

  /** Scenes with different ids get different files. */
  lemma ScenePathsDistinct(dir: string, a: int, b: int, ext: string)
    requires a != b
    ensures ScenePath(dir, a, ext) != ScenePath(dir, b, ext)
  {
    Pad2IntInjective(a, b);
    var pa, pb := ScenePath(dir, a, ext), ScenePath(dir, b, ext);
    var n := |dir + "/scene_"|;
    if |Pad2Int(a)| == |Pad2Int(b)| {
      assert pa[n..n + |Pad2Int(a)|] == Pad2Int(a);
      assert pb[n..n + |Pad2Int(b)|] == Pad2Int(b);
    } else {
      assert |pa| != |pb|;
    }
  }

  /** Whether a scene carries the audio `pcm`, saved at `path`. */
  predicate Voiced(scene: Scene, path: string, pcm: seq<bv8>)
    reads scene
  {
    scene.audioPath == Some(path) && scene.audioDuration == MarpVideo.PcmSeconds(|pcm|)
  }

  /**
   * The loop of step 2 with each scene's file name worked out beforehand: the
   * first reply without audio raises out of the workflow, with the earlier scenes
   * already updated.
   */
  method GenerateAudioAt(scenes: seq<Scene>, paths: seq<string>, replies: seq<Reply>) returns (ok: bool, done: nat)
    requires Distinct(scenes) && |paths| == |scenes| && |replies| == |scenes|
    modifies scenes
    ensures done <= |scenes| && (ok <==> done == |scenes|)
    ensures !ok ==> ReplyAudio(replies[done]).None?
    ensures forall k :: 0 <= k < done ==> ReplyAudio(replies[k]).Some?
    ensures forall k :: 0 <= k < done ==> Voiced(scenes[k], paths[k], ReplyAudio(replies[k]).value)
    ensures forall k :: done <= k < |scenes| ==> (scenes[k].audioPath == old(scenes[k].audioPath)
      && scenes[k].audioDuration == old(scenes[k].audioDuration))
    ensures forall k :: 0 <= k < |scenes| ==> (scenes[k].sceneId == old(scenes[k].sceneId)
      && scenes[k].imagePrompt == old(scenes[k].imagePrompt) && scenes[k].imagePath == old(scenes[k].imagePath))
  {
    done := 0;
    while done < |scenes|
      invariant done <= |scenes|
      invariant forall k :: 0 <= k < done ==> ReplyAudio(replies[k]).Some?
      invariant forall k :: 0 <= k < done ==> Voiced(scenes[k], paths[k], ReplyAudio(replies[k]).value)
      invariant forall k :: done <= k < |scenes| ==> (scenes[k].audioPath == old(scenes[k].audioPath)
        && scenes[k].audioDuration == old(scenes[k].audioDuration))
      invariant forall k :: 0 <= k < |scenes| ==> (scenes[k].sceneId == old(scenes[k].sceneId)
        && scenes[k].imagePrompt == old(scenes[k].imagePrompt) && scenes[k].imagePath == old(scenes[k].imagePath))
    {
      var audio := GenerateAudio(replies[done]);
      if audio.AudioError? {
        ok := false;
        return;
      }
      scenes[done].audioPath := Some(paths[done]);
      scenes[done].audioDuration := audio.seconds;
      done := done + 1;
    }
    ok := true;
  }

  /**
   * Step 2 of `generate_from_text`: audio for every scene, in order, saved as
   * scene_NN.wav and its duration recorded.
   */
  method GenerateSceneAudio(scenes: seq<Scene>, audioDir: string, replies: seq<Reply>) returns (ok: bool, done: nat)
    requires Distinct(scenes) && |replies| == |scenes|
    modifies scenes
    ensures done <= |scenes| && (ok <==> done == |scenes|)
    ensures !ok ==> ReplyAudio(replies[done]).None?
    ensures forall k :: 0 <= k < done ==> ReplyAudio(replies[k]).Some?
    ensures forall k :: 0 <= k < done ==>
      Voiced(scenes[k], ScenePath(audioDir, scenes[k].sceneId, ".wav"), ReplyAudio(replies[k]).value)
    ensures forall k :: done <= k < |scenes| ==> (scenes[k].audioPath == old(scenes[k].audioPath)
      && scenes[k].audioDuration == old(scenes[k].audioDuration))
    ensures forall k :: 0 <= k < |scenes| ==> (scenes[k].sceneId == old(scenes[k].sceneId)
      && scenes[k].imagePrompt == old(scenes[k].imagePrompt) && scenes[k].imagePath == old(scenes[k].imagePath))
  {
    var paths := ScenePaths(scenes, audioDir, ".wav");
    ok, done := GenerateAudioAt(scenes, paths, replies);
  }

  /** The file each scene is given by a step, named after the scene's id. */
  function ScenePaths(scenes: seq<Scene>, dir: string, ext: string): (paths: seq<string>)
    reads scenes
    ensures |paths| == |scenes|
    ensures forall k :: 0 <= k < |scenes| ==> paths[k] == ScenePath(dir, scenes[k].sceneId, ext)
  {
    seq(|scenes|, k reads scenes requires 0 <= k < |scenes| => ScenePath(dir, scenes[k].sceneId, ext))
  }

  /**
   * The loop of step 3 with each scene's file name worked out beforehand: generate
   * the image from the scene's prompt, then set the path whatever the result.
   */
  method GenerateImagesAt(scenes: seq<Scene>, paths: seq<string>, replies: seq<Reply>, decodes: seq<bool>)
    returns (files: seq<ImageFile>)
    requires Distinct(scenes) && |paths| == |scenes| && |replies| == |scenes| && |decodes| == |scenes|
    modifies scenes
    ensures |files| == |scenes|
    ensures forall k :: 0 <= k < |scenes| ==> files[k] == ReplyImage(scenes[k].imagePrompt, replies[k], decodes[k])
    ensures forall k :: 0 <= k < |scenes| ==> scenes[k].imagePath == Some(paths[k])
    ensures forall k :: 0 <= k < |scenes| ==> (scenes[k].sceneId == old(scenes[k].sceneId)
      && scenes[k].imagePrompt == old(scenes[k].imagePrompt) && scenes[k].audioPath == old(scenes[k].audioPath)
      && scenes[k].audioDuration == old(scenes[k].audioDuration))
  {
    files := [];
    for i := 0 to |scenes|
      invariant |files| == i
      invariant forall k :: 0 <= k < i ==> files[k] == ReplyImage(scenes[k].imagePrompt, replies[k], decodes[k])
      invariant forall k :: 0 <= k < i ==> scenes[k].imagePath == Some(paths[k])
      invariant forall k :: 0 <= k < |scenes| ==> (scenes[k].sceneId == old(scenes[k].sceneId)
        && scenes[k].imagePrompt == old(scenes[k].imagePrompt) && scenes[k].audioPath == old(scenes[k].audioPath)
        && scenes[k].audioDuration == old(scenes[k].audioDuration))
    {
      var _, file := GenerateImage(scenes[i].imagePrompt, replies[i], decodes[i]);
      files := files + [file];
      scenes[i].imagePath := Some(paths[i]);
    }
  }

  /**
   * Step 3 of `generate_from_text`: an image for every scene, in order, saved as
   * scene_NN.png. The path is set whatever `generate_image` returned, so a scene
   * whose reply had no image still points at a file that was never written.
   */
  method GenerateSceneImages(scenes: seq<Scene>, imagesDir: string, replies: seq<Reply>, decodes: seq<bool>)
    returns (files: seq<ImageFile>)
    requires Distinct(scenes) && |replies| == |scenes| && |decodes| == |scenes|
    modifies scenes
    ensures |files| == |scenes|
    ensures forall k :: 0 <= k < |scenes| ==> files[k] == ReplyImage(scenes[k].imagePrompt, replies[k], decodes[k])
    ensures forall k :: 0 <= k < |scenes| ==> scenes[k].imagePath == Some(ScenePath(imagesDir, scenes[k].sceneId, ".png"))
    ensures forall k :: 0 <= k < |scenes| ==> (scenes[k].sceneId == old(scenes[k].sceneId)
      && scenes[k].imagePrompt == old(scenes[k].imagePrompt) && scenes[k].audioPath == old(scenes[k].audioPath)
      && scenes[k].audioDuration == old(scenes[k].audioDuration))
  {
    var paths := ScenePaths(scenes, imagesDir, ".png");
    files := GenerateImagesAt(scenes, paths, replies, decodes);
  }

  /** `output_name`, defaulting to `video_{timestamp}`, under the videos directory. */
  function OutputPath(videoDir: string, outputName: Option<string>, timestamp: string): (p: string)
    ensures outputName.Some? ==> p == videoDir + "/" + outputName.value + ".mp4"
    ensures outputName.None? ==> p == videoDir + "/video_" + timestamp + ".mp4"
  {
    videoDir + "/" + outputName.GetOr("video_" + timestamp) + ".mp4"
  }

  // ----- generate_from_url's page text -----

  /** The HTML parser subclass: the kept pieces, whether the parser is inside `<body>`, and the current tag. */
  class BodyTextExtractor {
    var text: seq<string>
    var inBody: bool
    var currentTag: Option<string>

    constructor()
      ensures text == [] && !inBody && currentTag == None
    {
      text := [];
      inBody := false;
      currentTag := None;
    }

    /** `handle_starttag`: the tag becomes current; `<body>` enters the body. */
    method HandleStartTag(name: string)
      modifies this
      ensures currentTag == Some(name) && text == old(text)
      ensures inBody == (old(inBody) || name == "body")
    {
      currentTag := Some(name);
      if name == "body" {
        inBody := true;
      }
    }

    /** `handle_endtag`: every end tag clears the current tag; `</body>` leaves the body. */
    method HandleEndTag(name: string)
      modifies this
      ensures currentTag == None && text == old(text)
      ensures inBody == (old(inBody) && name != "body")
    {
      if name == "body" {
        inBody := false;
      }
      currentTag := None;
    }

    /** `handle_data`: keep the stripped text when inside the body and not under a skipped tag. */
    method HandleData(data: string)
      modifies this
      ensures inBody == old(inBody) && currentTag == old(currentTag)
      ensures text == old(text) + BodyKept(old(inBody), old(currentTag), data)
    {
      if inBody && (currentTag.None? || currentTag.value !in SkipTags) {
        var t := Strip(data);
        if t != "" {
          text := text + [t];
        }
      }
    }

    /** `feed`: the callbacks in page order. */
    method Feed(events: seq<HtmlEvent>)
      modifies this
      ensures text == old(text) + BodyExtract(old(inBody), old(currentTag), events)
    {
      for i := 0 to |events|
        invariant text + BodyExtract(inBody, currentTag, events[i..])
          == old(text) + BodyExtract(old(inBody), old(currentTag), events)
      {
        Handle(events, i);
      }
    }

    /** The callback for the event at `i`. */
    method Handle(events: seq<HtmlEvent>, i: nat)
      requires i < |events|
      modifies this
      ensures text + BodyExtract(inBody, currentTag, events[i + 1..])
        == old(text) + BodyExtract(old(inBody), old(currentTag), events[i..])
    {
      BodyExtractStep(inBody, currentTag, events, i);
      match events[i]
      case StartTag(name) => HandleStartTag(name);
      case EndTag(name) => HandleEndTag(name);
      case Data(d) => HandleData(d);
    }
  }

  /** The piece a data callback keeps in the given state. */
  function BodyKept(inBody: bool, tag: Option<string>, data: string): seq<string> {
    if inBody && (tag.None? || tag.value !in SkipTags) then Piece(data) else []
  }

  /** The pieces a page yields from the given parser state. */
  function BodyExtract(inBody: bool, tag: Option<string>, events: seq<HtmlEvent>): (r: seq<string>)
    ensures forall k :: 0 <= k < |r| ==> r[k] != ""
    decreases |events|
  {
    if events == [] then []
    else match events[0]
      case StartTag(name) => BodyExtract(inBody || name == "body", Some(name), events[1..])
      case EndTag(name) => BodyExtract(inBody && name != "body", None, events[1..])
      case Data(d) => BodyKept(inBody, tag, d) + BodyExtract(inBody, tag, events[1..])
  }

  /** One callback of `feed`: what the event at `i` contributes, and the state after it. */
  lemma BodyExtractStep(inBody: bool, tag: Option<string>, events: seq<HtmlEvent>, i: nat)
    requires i < |events|
    ensures events[i].StartTag? ==> (BodyExtract(inBody, tag, events[i..])
      == BodyExtract(inBody || events[i].name == "body", Some(events[i].name), events[i + 1..]))
    ensures events[i].EndTag? ==> (BodyExtract(inBody, tag, events[i..])
      == BodyExtract(inBody && events[i].name != "body", None, events[i + 1..]))
    ensures events[i].Data? ==> (BodyExtract(inBody, tag, events[i..])
      == BodyKept(inBody, tag, events[i].text) + BodyExtract(inBody, tag, events[i + 1..]))
  {
    assert events[i..][1..] == events[i + 1..];
  }

  /** The text handed to `generate_from_text`: the pieces joined by single spaces. */
  function PageText(events: seq<HtmlEvent>): string {
    Join(BodyExtract(false, None, events), " ")
  }

  /** Every piece this extractor keeps is one of the page's non-blank data pieces. */
  lemma {:induction false} BodyExtractKeepsPagePieces(inBody: bool, tag: Option<string>, events: seq<HtmlEvent>)
    ensures forall p :: p in BodyExtract(inBody, tag, events) ==> p in AllPieces(events)
    decreases |events|
  {
    if events != [] {
      match events[0]
      case StartTag(name) => BodyExtractKeepsPagePieces(inBody || name == "body", Some(name), events[1..]);
      case EndTag(name) => BodyExtractKeepsPagePieces(inBody && name != "body", None, events[1..]);
      case Data(d) => BodyExtractKeepsPagePieces(inBody, tag, events[1..]);
    }
  }

  /** A page that never opens `<body>` yields no text. */
  lemma {:induction false} NoBodyNoText(tag: Option<string>, events: seq<HtmlEvent>)
    requires forall k :: 0 <= k < |events| ==> events[k] != StartTag("body")
    ensures BodyExtract(false, tag, events) == []
    decreases |events|
  {
    if events != [] {
      assert forall k :: 0 <= k < |events| - 1 ==> events[1..][k] == events[k + 1];
      match events[0]
      case StartTag(name) => NoBodyNoText(Some(name), events[1..]);
      case EndTag(name) => NoBodyNoText(None, events[1..]);
      case Data(d) => NoBodyNoText(tag, events[1..]);
    }
  }

  /** Unlike the slide generator's extractor, closing a skipped tag resumes keeping text. */
  lemma EndTagResumes(name: string, d: string, rest: seq<HtmlEvent>)
    requires name in SkipTags && !AllSpace(d)
    ensures BodyExtract(true, Some(name), [EndTag(name), Data(d)] + rest) == [Strip(d)] + BodyExtract(true, None, rest)
  {
    var events := [EndTag(name), Data(d)] + rest;
    BodyExtractStep(true, Some(name), events, 0);
    BodyExtractStep(true, None, events, 1);
    assert events[0..] == events && events[2..] == rest;
    assert BodyKept(true, None, d) == [Strip(d)];
  }
}
