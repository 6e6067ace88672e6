/**
 * The Marp video workflow of marp_video_generator/main.py: the slides.md it writes,
 * the pages it saves as letterboxed 1920x1080 images, the image and audio paths it
 * sets on each SlideData, the clip lengths of the assembled video, and the page-text
 * extractor of generate_from_url.
 */
module MarpVideo {
  import opened Wrappers
  import opened Text
  import opened Html
  import Letterbox

  /** A slide of the workflow; the later steps set its image, audio and duration in place. */
  class SlideData {
    var page: int
    var markdown: string
    var script: string
    var imagePath: Option<string>
    var audioPath: Option<string>
    var audioDuration: real

    /** A slide as the content step creates it: no image, no audio, duration 0. */
    constructor(page: int, markdown: string, script: string)
      ensures this.page == page && this.markdown == markdown && this.script == script
      ensures imagePath == None && audioPath == None && audioDuration == 0.0
    {
      this.page := page;
      this.markdown := markdown;
      this.script := script;
      imagePath := None;
      audioPath := None;
      audioDuration := 0.0;
    }
  }

  /** The content step builds a new SlideData for every slide, so no object appears twice. */
  predicate Distinct(slides: seq<SlideData>) {
    forall i, j :: 0 <= i < j < |slides| ==> slides[i] != slides[j]
  }

  // ----- slides.md -----

  /** The Marp front matter of `create_markdown_file`. */
  function Frontmatter(theme: string): string {
    "---\nmarp: true\ntheme: " + theme + "\npaginate: true\nstyle: |\n  section {\n"
    + "    font-family: 'Noto Sans JP', 'Hiragino Sans', sans-serif;\n    font-size: 28px;\n  }\n"
    + "  h1 {\n    font-size: 48px;\n    color: #333;\n  }\n  h2 {\n    font-size: 36px;\n    color: #444;\n  }\n"
    + "  ul, ol {\n    font-size: 24px;\n  }\n---\n\n"
  }

  const Separator: string := "\n---\n\n"

  /** Each slide's markdown followed by a newline. */
  function Blocks(ms: seq<string>): (bs: seq<string>)
    ensures |bs| == |ms| && forall i :: 0 <= i < |ms| ==> bs[i] == ms[i] + "\n"
  {
    seq(|ms|, i requires 0 <= i < |ms| => ms[i] + "\n")
  }

  /** The file: the front matter, then the blocks with "\n---\n\n" before every block after the first. */
  function MarkdownFile(theme: string, ms: seq<string>): string {
    Frontmatter(theme) + Join(Blocks(ms), Separator)
  }

  function Markdowns(slides: seq<SlideData>): (ms: seq<string>)
    reads slides
    ensures |ms| == |slides| && forall i :: 0 <= i < |slides| ==> ms[i] == slides[i].markdown
  {
    seq(|slides|, i reads slides requires 0 <= i < |slides| => slides[i].markdown)
  }

  lemma BlocksSnoc(ms: seq<string>, i: nat)
    requires i < |ms|
    ensures Blocks(ms[..i + 1]) == Blocks(ms[..i]) + [ms[i] + "\n"]
  {
    assert ms[..i + 1][..i] == ms[..i];
  }

  /** The slide part of `create_markdown_file`'s `content +=` loop: a separator before every slide after the first. */
  method SlideBlocks(slides: seq<SlideData>) returns (body: string)
    ensures body == Join(Blocks(Markdowns(slides)), Separator)
  {
    ghost var ms := Markdowns(slides);
    body := "";
    for i := 0 to |slides|
      invariant body == Join(Blocks(ms[..i]), Separator)
    {
      BlocksSnoc(ms, i);
      ghost var before := Blocks(ms[..i]);
      if i > 0 {
        body := body + Separator;
        JoinSnoc(before, ms[i] + "\n", Separator);
      } else {
        assert Blocks(ms[..1]) == [ms[0] + "\n"];
      }
      body := body + (slides[i].markdown + "\n");
    }
    assert ms[..|slides|] == ms;
  }

  /** `create_markdown_file`'s text: the front matter, then the slides. */
  method CreateMarkdown(slides: seq<SlideData>, theme: string) returns (content: string)
    ensures content == MarkdownFile(theme, Markdowns(slides))
  {
    var body := SlideBlocks(slides);
    content := Frontmatter(theme) + body;
  }

  /** Every slide's markdown, with its newline, is in the file. */
  lemma MarkdownFileHasEverySlide(theme: string, ms: seq<string>, i: nat)
    requires i < |ms|
    ensures Contains(MarkdownFile(theme, ms), ms[i] + "\n")
  {
    var p := ms[i] + "\n";
    ContainsMiddle([], p, []);
    assert [] + p + [] == p;
    JoinContains(Blocks(ms), Separator, i, p);
    ContainsPrepend(Frontmatter(theme), Join(Blocks(ms), Separator), p);
  }

  // ----- the page images -----

  /** `slide_{i:02d}.png` for page `i`, counting from 1. */
  function PagePath(dir: string, i: nat): string {
    dir + "/slide_" + Pad2(i) + ".png"
  }

  /** Different pages are saved under different names. */
  lemma PagePathsDistinct(dir: string, i: nat, j: nat)
    requires i != j
    ensures PagePath(dir, i) != PagePath(dir, j)
  {
    Pad2IntInjective(i, j);
    var a, b := PagePath(dir, i), PagePath(dir, j);
    var n := |dir + "/slide_"|;
    if |Pad2(i)| == |Pad2(j)| {
      assert a[n..n + |Pad2(i)|] == Pad2(i);
      assert b[n..n + |Pad2(j)|] == Pad2(j);
    } else {
      assert |a| != |b|;
    }
  }

  /**
   * The loop of `convert_pdf_to_images`: every page, in order, letterboxed into
   * 1920x1080 and saved as slide_01.png, slide_02.png, ...
   */
  method ConvertPages(pageSizes: seq<(int, int)>, dir: string)
    returns (paths: seq<string>, placements: seq<Letterbox.Placement>)
    requires forall k :: 0 <= k < |pageSizes| ==> pageSizes[k].0 > 0 && pageSizes[k].1 > 0
    ensures |paths| == |pageSizes| && |placements| == |pageSizes|
    ensures forall k :: 0 <= k < |paths| ==> paths[k] == PagePath(dir, k + 1)
    ensures forall k :: 0 <= k < |placements| ==>
      placements[k] == Letterbox.Fit(1920, 1080, pageSizes[k].0, pageSizes[k].1)
  {
    paths, placements := [], [];
    for i := 0 to |pageSizes|
      invariant |paths| == i && |placements| == i
      invariant forall k :: 0 <= k < i ==> paths[k] == PagePath(dir, k + 1)
      invariant forall k :: 0 <= k < i ==> placements[k] == Letterbox.Fit(1920, 1080, pageSizes[k].0, pageSizes[k].1)
    {
      var (w, h) := pageSizes[i];
      placements := placements + [Letterbox.Fit(1920, 1080, w, h)];
      paths := paths + [PagePath(dir, i + 1)];
    }
  }

  // ----- image and audio paths -----

  /** Slides and images are paired in order: only the first min(#slides, #images) slides get an image. */
  method AttachImages(slides: seq<SlideData>, images: seq<string>)
    requires Distinct(slides)
    modifies slides
    ensures forall i :: 0 <= i < |slides| ==>
      slides[i].imagePath == (if i < |images| then Some(images[i]) else old(slides[i].imagePath))
    ensures forall i :: 0 <= i < |slides| ==> (slides[i].page == old(slides[i].page)
      && slides[i].markdown == old(slides[i].markdown) && slides[i].script == old(slides[i].script)
      && slides[i].audioPath == old(slides[i].audioPath) && slides[i].audioDuration == old(slides[i].audioDuration))
  {
    var n := Min(|slides|, |images|);
    for i := 0 to n
      invariant forall k :: 0 <= k < |slides| ==>
        slides[k].imagePath == (if k < i then Some(images[k]) else old(slides[k].imagePath))
      invariant forall k :: 0 <= k < |slides| ==> (slides[k].page == old(slides[k].page)
        && slides[k].markdown == old(slides[k].markdown) && slides[k].script == old(slides[k].script)
        && slides[k].audioPath == old(slides[k].audioPath) && slides[k].audioDuration == old(slides[k].audioDuration))
    {
      slides[i].imagePath := Some(images[i]);
    }
  }

  /** The TTS voices of AudioSynthesizer; an unknown key falls back to "Kore". */
  function VoiceName(voice: string): (name: string)
    ensures name in {"Kore", "Puck", "Charon", "Aoede"}
    ensures voice !in {"default", "bright", "calm", "warm"} ==> name == "Kore"
  {
    if voice == "bright" then "Puck" else if voice == "calm" then "Charon"
    else if voice == "warm" then "Aoede" else "Kore"
  }

  /** 24 kHz, 16-bit mono: 48000 bytes of PCM per second. */
  const PcmBytesPerSecond: int := 24000 * 2

  /** `len(pcm_data) / (24000 * 2)`. */
  function PcmSeconds(pcmLength: nat): (d: real)
    ensures d >= 0.0 && d * PcmBytesPerSecond as real == pcmLength as real
  {
    pcmLength as real / PcmBytesPerSecond as real
  }

  /** `voice_{page:02d}.wav` in the audio directory. */
  function VoicePath(dir: string, page: int): string {
    dir + "/voice_" + Pad2Int(page) + ".wav"
  }

  /** Whether a slide carries the audio of `pcmLength` bytes saved in `dir`. */
  predicate Voiced(slide: SlideData, dir: string, pcmLength: nat)
    reads slide
  {
    slide.audioPath == Some(VoicePath(dir, slide.page)) && slide.audioDuration == PcmSeconds(pcmLength)
  }

  /** The assignments `synthesize_all` makes on one slide once its audio is saved. */
  method SetAudio(slide: SlideData, dir: string, pcmLength: nat)
    modifies slide
    ensures Voiced(slide, dir, pcmLength)
    ensures slide.page == old(slide.page) && slide.markdown == old(slide.markdown)
    ensures slide.script == old(slide.script) && slide.imagePath == old(slide.imagePath)
  {
    slide.audioPath := Some(VoicePath(dir, slide.page));
    slide.audioDuration := PcmSeconds(pcmLength);
  }

  /**
   * `synthesize_all`: slide by slide, in order, synthesise the script (`pcm[k]` bytes
   * of PCM for slide k) and set the slide's audio path and duration. A reply without
   * audio raises, which stops the loop with the earlier slides already updated.
   */
  method SynthesizeAll(slides: seq<SlideData>, audioDir: string, pcm: seq<nat>) returns (ok: bool, done: nat)
    requires Distinct(slides) && |pcm| == |slides|
    modifies slides
    ensures done <= |slides| && (ok <==> done == |slides|)
    ensures forall k :: 0 <= k < done ==> pcm[k] > 0
    ensures !ok ==> pcm[done] == 0
    ensures forall k :: 0 <= k < |slides| ==> (slides[k].page == old(slides[k].page)
      && slides[k].markdown == old(slides[k].markdown) && slides[k].script == old(slides[k].script)
      && slides[k].imagePath == old(slides[k].imagePath))
    ensures forall k :: 0 <= k < done ==> Voiced(slides[k], audioDir, pcm[k])
    ensures forall k :: done <= k < |slides| ==> (slides[k].audioPath == old(slides[k].audioPath)
      && slides[k].audioDuration == old(slides[k].audioDuration))
  {
    done := 0;
    while done < |slides|
      invariant done <= |slides|
      invariant forall k :: 0 <= k < done ==> pcm[k] > 0
      invariant forall k :: 0 <= k < |slides| ==> (slides[k].page == old(slides[k].page)
        && slides[k].markdown == old(slides[k].markdown) && slides[k].script == old(slides[k].script)
        && slides[k].imagePath == old(slides[k].imagePath))
      invariant forall k :: 0 <= k < done ==> Voiced(slides[k], audioDir, pcm[k])
      invariant forall k :: done <= k < |slides| ==> (slides[k].audioPath == old(slides[k].audioPath)
        && slides[k].audioDuration == old(slides[k].audioDuration))
    {
      if pcm[done] == 0 {
        ok := false;
        return;
      }
      assert forall k :: 0 <= k < |slides| && k != done ==> slides[k] != slides[done];
      SetAudio(slides[done], audioDir, pcm[done]);
      done := done + 1;
    }
    ok := true;
  }

  // ----- the assembled video -----

  /** `max(audio_duration + audio_padding, 3.0)`. */
  function ClipDuration(audioDuration: real, padding: real): (d: real)
    ensures d >= 3.0 && d >= audioDuration + padding
    ensures d == 3.0 || d == audioDuration + padding
  {
    RMax(audioDuration + padding, 3.0)
  }

  /** One clip: the slide image shown for its duration, with the slide's audio when its file exists. */
  datatype Clip = Clip(image: string, duration: real, audio: Option<string>)

  /**
   * The clip loop of `create_video`. A slide without an image makes `ImageClip`
   * raise, which ends the assembly at that slide.
   */
  method CreateClips(slides: seq<SlideData>, padding: real, existing: set<string>) returns (clips: seq<Clip>, ok: bool)
    ensures ok <==> forall k :: 0 <= k < |slides| ==> slides[k].imagePath.Some?
    ensures ok ==> |clips| == |slides|
    ensures !ok ==> |clips| < |slides| && slides[|clips|].imagePath.None?
    ensures forall k :: 0 <= k < |clips| ==> (slides[k].imagePath.Some?
      && clips[k].image == slides[k].imagePath.value
      && clips[k].duration == ClipDuration(slides[k].audioDuration, padding)
      && clips[k].audio == (if slides[k].audioPath.Some? && slides[k].audioPath.value in existing then slides[k].audioPath else None))
  {
    clips := [];
    for i := 0 to |slides|
      invariant |clips| == i
      invariant forall k :: 0 <= k < i ==> (slides[k].imagePath.Some?
        && clips[k].image == slides[k].imagePath.value
        && clips[k].duration == ClipDuration(slides[k].audioDuration, padding)
        && clips[k].audio == (if slides[k].audioPath.Some? && slides[k].audioPath.value in existing then slides[k].audioPath else None))
    {
      var slide := slides[i];
      if slide.imagePath.None? {
        ok := false;
        return;
      }
      var duration := RMax(slide.audioDuration + padding, 3.0);
      var audio := if slide.audioPath.Some? && slide.audioPath.value in existing then slide.audioPath else None;
      clips := clips + [Clip(slide.imagePath.value, duration, audio)];
    }
    ok := true;
  }

  /** The length of the video: the sum of its clips. */
  function VideoLength(clips: seq<Clip>): real {
    if clips == [] then 0.0 else VideoLength(clips[..|clips| - 1]) + clips[|clips| - 1].duration
  }

  /** The total the assembler logs: `sum(audio_duration + audio_padding)`, without the 3-second floor. */
  function LoggedTotal(audio: seq<real>, padding: real): real {
    if audio == [] then 0.0 else LoggedTotal(audio[..|audio| - 1], padding) + audio[|audio| - 1] + padding
  }

  /** The video is never shorter than the logged total, and lasts at least 3 seconds per clip. */
  lemma {:induction false} VideoAtLeastLogged(clips: seq<Clip>, audio: seq<real>, padding: real)
    requires |clips| == |audio|
    requires forall k :: 0 <= k < |clips| ==> clips[k].duration == ClipDuration(audio[k], padding)
    ensures VideoLength(clips) >= LoggedTotal(audio, padding)
    ensures VideoLength(clips) >= 3.0 * |clips| as real
    decreases |clips|
  {
    if clips != [] {
      var n := |clips| - 1;
      VideoAtLeastLogged(clips[..n], audio[..n], padding);
    }
  }

  // ----- the workflow -----

  /** `output_name`, defaulting to `video_{timestamp}`, under the videos directory. */
  function OutputPath(baseDir: string, outputName: Option<string>, timestamp: string): string {
    baseDir + "/videos/" + outputName.GetOr("video_" + timestamp) + ".mp4"
  }

  /**
   * Steps 3 to 5 of `generate` on freshly created slides: attach the page images,
   * synthesise the audio, build the clips. The video is assembled only when every
   * synthesis returned audio and there were at least as many pages as slides.
   */
  method AssembleSlides(slides: seq<SlideData>, images: seq<string>, audioDir: string, pcm: seq<nat>,
                        padding: real, existing: set<string>)
    returns (clips: seq<Clip>, ok: bool)
    requires Distinct(slides) && |pcm| == |slides|
    requires forall k :: 0 <= k < |slides| ==> slides[k].imagePath.None?
    modifies slides
    ensures ok <==> (forall k :: 0 <= k < |pcm| ==> pcm[k] > 0) && |images| >= |slides|
    ensures ok ==> |clips| == |slides|
    ensures ok ==> forall k :: 0 <= k < |slides| ==> (clips[k].image == images[k]
      && clips[k].duration == ClipDuration(PcmSeconds(pcm[k]), padding))
  {
    AttachImages(slides, images);
    var synthesized, done := SynthesizeAll(slides, audioDir, pcm);
    if !synthesized {
      assert pcm[done] == 0;
      clips, ok := [], false;
      return;
    }
    clips, ok := CreateClips(slides, padding, existing);
    if !ok {
      assert |images| < |slides| by {
        assert slides[|clips|].imagePath.None?;
      }
    } else if |slides| > 0 {
      assert slides[|slides| - 1].imagePath.Some?;
    }
  }

  // ----- generate_from_url's page text -----

  /** The HTML parser subclass: the text pieces kept so far and the most recent start tag. */
  class TextExtractor {
    var text: seq<string>
    var tag: Option<string>

    constructor()
      ensures text == [] && tag == None
    {
      text := [];
      tag := None;
    }

    /** `handle_starttag`: remember the tag; there is no end-tag handler, so it stays until the next start tag. */
    method HandleStartTag(name: string)
      modifies this
      ensures tag == Some(name) && text == old(text)
    {
      tag := Some(name);
    }

    /** `handle_data`: keep the stripped text unless the current tag is skipped or the text is blank. */
    method HandleData(data: string)
      modifies this
      ensures tag == old(tag)
      ensures text == old(text) + Kept(old(tag), data)
    {
      if tag.None? || tag.value !in SkipTags {
        var t := Strip(data);
        if t != "" {
          text := text + [t];
        }
      }
    }

    /** `feed`: the callbacks in page order. */
    method Feed(events: seq<HtmlEvent>)
      modifies this
      ensures text == old(text) + Extract(old(tag), events)
      ensures tag == LastTag(old(tag), events)
    {
      for i := 0 to |events|
        invariant text + Extract(tag, events[i..]) == old(text) + Extract(old(tag), events)
        invariant LastTag(tag, events[i..]) == LastTag(old(tag), events)
      {
        Handle(events, i);
      }
    }

    /** The callback for the event at `i`. */
    method Handle(events: seq<HtmlEvent>, i: nat)
      requires i < |events|
      modifies this
      ensures text + Extract(tag, events[i + 1..]) == old(text) + Extract(old(tag), events[i..])
      ensures LastTag(tag, events[i + 1..]) == LastTag(old(tag), events[i..])
    {
      ExtractStep(tag, events, i);
      match events[i]
      case StartTag(name) => HandleStartTag(name);
      case EndTag(_) =>
      case Data(d) => HandleData(d);
    }
  }

  /** The piece a data callback keeps under the current tag. */
  function Kept(tag: Option<string>, data: string): seq<string> {
    if tag.None? || tag.value !in SkipTags then Piece(data) else []
  }

  /** The pieces a page yields, starting from the tag `tag`. */
  function Extract(tag: Option<string>, events: seq<HtmlEvent>): (r: seq<string>)
    ensures forall k :: 0 <= k < |r| ==> r[k] != ""
    decreases |events|
  {
    if events == [] then []
    else match events[0]
      case StartTag(name) => Extract(Some(name), events[1..])
      case EndTag(_) => Extract(tag, events[1..])
      case Data(d) => Kept(tag, d) + Extract(tag, events[1..])
  }

  /** The most recent start tag after the events. */
  function LastTag(tag: Option<string>, events: seq<HtmlEvent>): Option<string>
    decreases |events|
  {
    if events == [] then tag
    else LastTag(if events[0].StartTag? then Some(events[0].name) else tag, events[1..])
  }

  /** One callback of `feed`: what the event at `i` contributes, and the tag after it. */
  lemma ExtractStep(tag: Option<string>, events: seq<HtmlEvent>, i: nat)
    requires i < |events|
    ensures events[i].StartTag? ==> (Extract(tag, events[i..]) == Extract(Some(events[i].name), events[i + 1..])
      && LastTag(tag, events[i..]) == LastTag(Some(events[i].name), events[i + 1..]))
    ensures events[i].EndTag? ==> (Extract(tag, events[i..]) == Extract(tag, events[i + 1..])
      && LastTag(tag, events[i..]) == LastTag(tag, events[i + 1..]))
    ensures events[i].Data? ==> (Extract(tag, events[i..]) == Kept(tag, events[i].text) + Extract(tag, events[i + 1..])
      && LastTag(tag, events[i..]) == LastTag(tag, events[i + 1..]))
  {
    assert events[i..][1..] == events[i + 1..];
  }

  /** The text handed to `generate`: the pieces joined by single spaces. */
  function PageText(events: seq<HtmlEvent>): string {
    Join(Extract(None, events), " ")
  }

  /** A page that opens no skipped tag keeps all its non-blank data. */
  lemma {:induction false} ExtractWithoutSkipTags(tag: Option<string>, events: seq<HtmlEvent>)
    requires tag.None? || tag.value !in SkipTags
    requires NoSkipTag(events)
    ensures Extract(tag, events) == AllPieces(events)
    decreases |events|
  {
    if events != [] {
      assert NoSkipTag(events[1..]) by {
        assert forall k :: 0 <= k < |events| - 1 ==> events[1..][k] == events[k + 1];
      }
      match events[0]
      case StartTag(name) => ExtractWithoutSkipTags(Some(name), events[1..]);
      case EndTag(_) => ExtractWithoutSkipTags(tag, events[1..]);
      case Data(d) => ExtractWithoutSkipTags(tag, events[1..]);
    }
  }

  /** Closing a skipped tag does not end the skipping: the text after `</script>` is lost too. */
  lemma EndTagKeepsSkipping()
    ensures Extract(None, [StartTag("script"), Data("x"), EndTag("script"), Data("after")]) == []
  {
    var e := [StartTag("script"), Data("x"), EndTag("script"), Data("after")];
    assert e[1..] == [Data("x"), EndTag("script"), Data("after")];
    assert e[1..][1..] == [EndTag("script"), Data("after")];
    assert e[1..][1..][1..] == [Data("after")];
  }
}
