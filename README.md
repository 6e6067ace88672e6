# if-blog-auto bookkeeping, modelled in Dafny

if-blog-auto turns a researched topic into a Japanese blog article, a Marp slide
deck and narrated videos, scores them with a quality rubric, and publishes the
article to GitHub Pages. This project models the deterministic bookkeeping that
surrounds the model, TTS, rendering and git calls, and proves what that
bookkeeping promises:

- the frame timeline and subtitle segmentation of the V3 video generator
  (`timing_v3.dfy`), its narration padding and TTS results (`narration_v3.dfy`),
  Marp header, fallback deck and title extraction (`marp_v3.dfy`) and Remotion
  props (`render_v3.dfy`), with the position-to-slide-type rule in `deck.dfy`;
- the weighted quality rubric for article, slides and video, the overall
  percentage and the summary text (`quality.dfy`);
- the V2 video generator's slide-count fitting, fallback script, image and audio
  steps, gradient colours and props (`video_v2.dfy`);
- the slide video generator's 30-second cap, audio acceptance, WAV check, image
  numbering, slide normalisation and step order with its clean-up
  (`slide_video.dfy`);
- the slide generator's Marp markdown, integer validator and image choice
  (`slides.dfy`);
- the Marp video workflow (`marp_video.dfy`) and the scene video workflow
  (`scene_video.dfy`), including both HTML text extractors over the parser
  callbacks of `html.dfy`, and the letterbox arithmetic both resizers share
  (`letterbox.dfy`);
- the key-point extraction and props handling of the Remotion blog video
  (`points.dfy`);
- the source list and article post-processing of the content generator
  (`content.dfy`);
- slugs, Jekyll front matter, file names, URLs and a publish run (`publish.dfy`);
- the dashboard's in-memory post store (`post_store.dfy`);
- the Gemini client's configuration, Deep Research polling loop, grounding
  sources and image filter (`gemini.dfy`).

`text.dfy` holds the Python string behaviour the modules share (`strip`,
`split`, `join`, slicing, `count`, `in`, zero-padded numbers) and `wrappers.dfy`
the `Option` type that stands for `None` and for missing dictionary keys.
Every external call is an input: what the model, TTS or image service replied,
whether a subprocess succeeded, which files exist and how large they are, the
clock readings, and whether a save or a push succeeded. Durations, ratios and
scores are exact reals.

Where code and design notes differ, the model follows the code. Loops in the
source are methods with loop invariants proved against a specification
function; objects whose fields the source sets in place (`SlideData`, `Scene`,
the text extractors, the post store, the published site, the Remotion
directory) are classes.

## Model

| member | source | states |
|---|---|---|
| Deck.PositionType | src/scripts/generate_video_v3.py:890 | the first slide is "title", a later last slide is "ending", every other slide is "content", each as an if-and-only-if |
| NarrationV3.Placeholder | src/scripts/generate_video_v3.py:565-570 | a padding entry carries its 1-based position as id and the padding sentence |
| NarrationV3.PadNarrations | src/scripts/generate_video_v3.py:564-573 | exactly `slideCount` entries: the model's entries kept in order, missing positions filled with numbered placeholders |
| NarrationV3.FallbackNarrations | src/scripts/generate_video_v3.py:579-597 | n entries with ids 1..n and headings "スライド{i}"; the intro first, the summary last when n >= 2, "ポイント{i-1}" in between |
| NarrationV3.AudioFor | src/scripts/generate_video_v3.py:628-658 | audio is kept exactly when the text is not blank and synthesis returned PCM; its duration is PCM bytes / 48000, otherwise the 5.0 s default with no audio |
| NarrationV3.GenerateAll | src/scripts/generate_video_v3.py:617-663 | one result per narration, in order, each the per-entry rule |
| RenderV3.SlideImage | src/scripts/generate_video_v3.py:880-885 | slide i gets the PNG data URL of image i, or "" when there are fewer images |
| RenderV3.BuildProps | src/scripts/generate_video_v3.py:866-915 | title, topic, fps and total frames passed through; one props slide and one image per timed slide; tiled timings give tiled props |
| RenderV3.TilingCarriesOver | src/scripts/generate_video_v3.py:894-895 | props that copy every slide's start and end frame from tiled timings, with the same total, are tiled |
| RenderV3.PropsTypes | src/scripts/generate_video_v3.py:890 | the first props slide is the title, and a later last slide the ending |
| Letterbox.Fit | src/scripts/generate_video_v2.py:433-457 | a wider image takes the full width and a height within one row of the exact ratio, any other the full height; the pasted image lies inside the canvas |
| Letterbox.FitCentred | src/scripts/generate_video_v2.py:453-454 | the margins on the two sides differ by at most one pixel |
| Letterbox.FitSameShape | marp_video_generator/main.py:461-485 | an image already of the canvas's shape fills it exactly with no offset |
| Letterbox.ScaleFits | marp_video_generator/main.py:468-476 | the truncated scaled side never exceeds the canvas side |
| Html.Piece | marp_video_generator/main.py:836-840 | a data callback yields one stripped piece exactly when the text is not blank, and nothing otherwise |
| MarpVideo.SlideData.constructor | marp_video_generator/main.py:97-104 | a new slide has its page, markdown and script, no image or audio and duration 0 |
| MarpVideo.Blocks | marp_video_generator/main.py:330-333 | each slide's markdown is followed by a newline |
| MarpVideo.Markdowns | marp_video_generator/main.py:330-333 | the markdown of every slide, in order |
| MarpVideo.SlideBlocks | marp_video_generator/main.py:330-333 | the loop's text is the newline-terminated blocks joined with "\n---\n\n" |
| MarpVideo.CreateMarkdown | marp_video_generator/main.py:284-335 | the file is the front matter followed by the joined slide blocks |
| MarpVideo.MarkdownFileHasEverySlide | marp_video_generator/main.py:330-333 | every slide's markdown, with its newline, occurs in the file |
| MarpVideo.PagePathsDistinct | marp_video_generator/main.py:437 | different page numbers give different slide_NN.png names |
| MarpVideo.ConvertPages | marp_video_generator/main.py:432-445 | one path and one placement per page, in order: slide_{k:02d}.png and the 1920x1080 letterbox of that page |
| MarpVideo.AttachImages | marp_video_generator/main.py:770-771 | slide i gets image i when there is one and keeps its old path otherwise; no other field changes |
| MarpVideo.VoiceName | marp_video_generator/main.py:497-533 | the voice is one of the four names, and an unknown key gives "Kore" |
| MarpVideo.PcmSeconds | marp_video_generator/main.py:572 | the duration times 48000 is the PCM length, and it is never negative |
| MarpVideo.SetAudio | marp_video_generator/main.py:624-625 | the slide carries the voice_NN.wav path and the PCM duration; page, markdown, script and image are unchanged |
| MarpVideo.SynthesizeAll | marp_video_generator/main.py:599-634 | slides are voiced in order up to the first reply without audio, which stops the run; later slides and all other fields are untouched |
| MarpVideo.ClipDuration | marp_video_generator/main.py:658-662 | the clip lasts the audio plus padding, or 3 s when that is shorter |
| MarpVideo.CreateClips | marp_video_generator/main.py:654-674 | one clip per slide up to the first slide without an image; each shows that image for its clip duration, with the audio only when the file exists |
| MarpVideo.VideoAtLeastLogged | marp_video_generator/main.py:698-699 | the video is never shorter than the logged total and lasts at least 3 s per clip |
| MarpVideo.AssembleSlides | marp_video_generator/main.py:766-781 | the video is assembled exactly when every synthesis returned audio and there were enough pages; then clip k shows page k for its audio's clip duration |
| MarpVideo.TextExtractor.constructor | marp_video_generator/main.py:827-831 | a new extractor has no text and no current tag |
| MarpVideo.TextExtractor.HandleStartTag | marp_video_generator/main.py:833-834 | the start tag becomes the current tag; the text is unchanged |
| MarpVideo.TextExtractor.HandleData | marp_video_generator/main.py:836-840 | the stripped non-blank data is appended unless the current tag is skipped |
| MarpVideo.TextExtractor.Handle | marp_video_generator/main.py:833-840 | one callback appends what the reference extraction keeps for that event and leaves the tag the reference extraction moves to |
| MarpVideo.TextExtractor.Feed | marp_video_generator/main.py:843-844 | feeding a page appends exactly the pieces Extract gives and leaves the last start tag current |
| MarpVideo.Extract | marp_video_generator/main.py:826-840 | no extracted piece is empty |
| MarpVideo.ExtractWithoutSkipTags | marp_video_generator/main.py:826-840 | a page that opens no skipped tag keeps all its non-blank data, stripped, in order |
| MarpVideo.EndTagKeepsSkipping | marp_video_generator/main.py:833-838 | with no end-tag handler, text after a closed `script` element is still dropped |
| TimingV3.SlideDuration | src/scripts/generate_video_v3.py:745-752 | the duration lies within [min, max]; it is the audio plus padding when the audio duration is truthy and that fits, the default otherwise |
| TimingV3.Sentences | src/scripts/generate_video_v3.py:792-793 | at most one sentence per piece, none empty or starting with whitespace |
| TimingV3.Display | src/scripts/generate_video_v3.py:807-811 | a sentence of at most 30 characters is shown as is, a longer one as its first 30 characters and "..." |
| TimingV3.Segments | src/scripts/generate_video_v3.py:802-823 | one segment per sentence, showing its display text; segment i starts `i * per` frames after `current` and, except the last, ends where `i + 1` full segments end; the last ends at `last` |
| TimingV3.SegmentsContiguous | src/scripts/generate_video_v3.py:813-823 | every segment but the last is `per` frames long and ends where the next one starts |
| TimingV3.SegmentsWithin | src/scripts/generate_video_v3.py:813-815 | when the full-length segments fit, every segment lies inside [current, last] |
| TimingV3.FloorDivFits | src/scripts/generate_video_v3.py:803 | n - 1 segments of total // n frames fit in the total |
| TimingV3.SubtitleSpec | src/scripts/generate_video_v3.py:779-825 | no subtitles exactly for a blank text; otherwise contiguous segments from the slide's start to its end, each text at most 60 characters |
| TimingV3.SubtitlesWithinSlide | src/scripts/generate_video_v3.py:779-825 | every segment starts and ends inside the slide's frames |
| TimingV3.GenerateSubtitles | src/scripts/generate_video_v3.py:779-825 | the method returns the segments SubtitleSpec describes |
| TimingV3.EmitSegments | src/scripts/generate_video_v3.py:802-825 | the loop emits Segments with total // n frames each and the last ending at the slide's end |
| TimingV3.SlideTimingAt | src/scripts/generate_video_v3.py:759-767 | slide i starts at the frames of the slides before it and ends where slide i + 1 starts |
| TimingV3.SpansPrefix | src/scripts/generate_video_v3.py:770-772 | in contiguous timings from frame 0, the first k slides span up to the end of slide k |
| TimingV3.TiledTotalIsSum | src/scripts/generate_video_v3.py:772 | in tiled timings the total frames are the sum of the slides' frames |
| TimingV3.TimingsTiled | src/scripts/generate_video_v3.py:744-772 | timings built from the running frame count tile [0, totalFrames) |
| TimingV3.Calculate | src/scripts/generate_video_v3.py:728-777 | one timing per audio result, in order, each from SlideTimingAt; the total is the frames of all slides, and the timings tile the video |
| TimingV3.ScaledTruncBounds | src/scripts/generate_video_v3.py:753 | int() of a scaled duration is monotone |
| TimingV3.FramesBounds | src/scripts/generate_video_v3.py:752-753 | every slide gets between int(min * fps) and int(max * fps) frames |
| TimingV3.TotalFramesBounds | src/scripts/generate_video_v3.py:770 | the first k slides take between k times the least and k times the most frames a slide can get |
| TimingV3.DefaultFramesBounds | src/scripts/generate_video_v3.py:72-80 | under the default configuration every slide gets 90 to 900 frames, and n slides 90n to 900n |
| TimingV3.StartsMonotone | src/scripts/generate_video_v3.py:770 | slide start frames never decrease along the video |
| TimingV3.TtsFedDurations | src/scripts/generate_video_v3.py:745-753 | fed by the TTS step, a slide lasts its audio plus 0.5 s clamped to [3, 30]; a failed synthesis gives 5.5 s and 165 frames, never the 5.0 s default |
| MarpV3.Header | src/scripts/generate_video_v3.py:290-309 | the prepended header opens with "---" |
| MarpV3.StripKeepsDashes | src/scripts/generate_video_v3.py:263 | a text opening with "---" still does after strip(), so the header test sees it |
| MarpV3.EnsureHeader | src/scripts/generate_video_v3.py:263-264 | the result always has a header; a text that had one is unchanged, any other gets the header in front |
| MarpV3.EnsureHeaderIdempotent | src/scripts/generate_video_v3.py:263-264 | adding the header twice is adding it once |
| MarpV3.SlideCount | src/scripts/generate_video_v3.py:267-269 | the count is the number of "---" minus one, at least 1; a count above 1 means the text has a "---" |
| MarpV3.FallbackChunks | src/scripts/generate_video_v3.py:329-351 | max(num_slides, 2) slides: the title slide, points 1..n-2, then the closing slide |
| MarpV3.FallbackMarp | src/scripts/generate_video_v3.py:318-361 | the fallback deck is the header plus the slides joined by "\n\n---\n\n"; it reports num_slides as given and the topic name as title |
| MarpV3.SpaceRunEnd | src/scripts/generate_video_v3.py:313 | the greedy `\s+` stops at the first non-whitespace character or the end |
| MarpV3.LineEnd | src/scripts/generate_video_v3.py:313 | `.+$` stops at the first newline or the end |
| MarpV3.TitleAt | src/scripts/generate_video_v3.py:313-315 | a captured title never contains a newline |
| MarpV3.FindTitle | src/scripts/generate_video_v3.py:313 | the search finds the leftmost match, and finds none exactly when no position matches |
| MarpV3.ExtractTitle | src/scripts/generate_video_v3.py:311-316 | the title never spans lines; with no match it is "Untitled"; a match at the start gives its capture |
| MarpV3.ExtractTitleOfHeading | src/scripts/generate_video_v3.py:311-316 | a deck opening with the line "# t" is titled t, stripped |
| MarpV3.ExtractTitleAcrossLines | src/scripts/generate_video_v3.py:313 | `\s+` crosses a line break, so a bare "#" line takes its title from the next line |
| VideoV2.PaddingSlide | src/scripts/generate_video_v2.py:247-256 | a padding slide carries its 1-based position as id and the padding narration; it is "content" before the target and "ending" at it |
| VideoV2.AdjustSlideCount | src/scripts/generate_video_v2.py:241-267 | the target count (Python's slice rule for a negative target); earlier slides kept, missing ones padded, and the last slide marked "ending" |
| VideoV2.PaddedDeckEndsWithPadding | src/scripts/generate_video_v2.py:245-264 | after padding, the last slide is the padding slide for the target, already an "ending" |
| VideoV2.FallbackSlide | src/scripts/generate_video_v2.py:275-298 | fallback slide i has id i and is the title at 1, the ending at n, content otherwise |
| VideoV2.FallbackScript | src/scripts/generate_video_v2.py:269-307 | max(n, 0) fallback slides in order; title is the topic name, description "{name}の解説動画", audio style "calm" |
| VideoV2.FallbackScriptShape | src/scripts/generate_video_v2.py:275-286 | a fallback slide is the title exactly at 1 and the ending exactly at n >= 2 |
| VideoV2.WithImageFields | src/scripts/generate_video_v2.py:345-380 | a slide keeps its fields and gains slide_{id:02d}.png and "gemini" or "fallback"; an empty prompt always falls back |
| VideoV2.ImagePathsDistinct | src/scripts/generate_video_v2.py:347 | slides with different ids get different image paths |
| VideoV2.GeneratedCount | src/scripts/generate_video_v2.py:355-357 | the Gemini count never exceeds the number of slides |
| VideoV2.GeneratedCountStep | src/scripts/generate_video_v2.py:355-368 | one more slide adds one to the count exactly when its image came from Gemini |
| VideoV2.WithImages | src/scripts/generate_video_v2.py:345-383 | one result per slide, in order, each the per-slide rule |
| VideoV2.WithImagesSnoc | src/scripts/generate_video_v2.py:374-379 | the results grow by one slide per iteration |
| VideoV2.GenerateImages | src/scripts/generate_video_v2.py:322-388 | the results are WithImages in input order, and successful + fallback_count equals the number of slides |
| VideoV2.HexDigitValue | src/scripts/generate_video_v2.py:508 | a hex digit's value is below 16 |
| VideoV2.ParseHexByte | src/scripts/generate_video_v2.py:508 | a parsed two-digit byte is below 256 |
| VideoV2.StripHashes | src/scripts/generate_video_v2.py:507 | lstrip('#') leaves a suffix of the text that does not start with '#' |
| VideoV2.HexChar | src/scripts/generate_video_v2.py:508 | the digit written for a value reads back as that value |
| VideoV2.HexByte | src/scripts/generate_video_v2.py:508 | a byte written as two hex digits parses back to itself |
| VideoV2.HexToRgbRoundTrip | src/scripts/generate_video_v2.py:506-508 | "#rrggbb" written from a colour parses back to that colour |
| VideoV2.Interpolate | src/scripts/generate_video_v2.py:518-521 | a mix with ratio in [0, 1] lies between its two ends |
| VideoV2.BlendBetween | src/scripts/generate_video_v2.py:517-521 | every row's channel lies between the two colours' channels, and the first row is the first colour |
| VideoV2.CreateGradient | src/scripts/generate_video_v2.py:497-525 | a fresh width-by-height image whose every pixel in row y has that row's blended colour |
| VideoV2.Voice | src/scripts/generate_video_v2.py:543-571 | the voice is one of the three names; "Kore" exactly when the style is neither "bright" nor "warm" |
| VideoV2.WithAudio | src/scripts/generate_video_v2.py:574-596 | no narration gives 3.0 s; a failed synthesis 5.0 s; a voiced slide its PCM duration and audio_{id:02d}.wav; the duration is always positive |
| VideoV2.SynthesizeAll | src/scripts/generate_video_v2.py:556-601 | one result per slide, in order; a combined narration.wav is reported exactly when some slide was voiced or the file already existed |
| VideoV2.Normalize | src/scripts/generate_video_v2.py:720-726 | a props slide lasts its audio duration (or the slide duration) plus the padding |
| VideoV2.BuildProps | src/scripts/generate_video_v2.py:711-761 | one props slide and one image per slide, in order; the total is the sum of the durations; the audio data URL is "" without a file; the config is passed through |
| VideoV2.SumDurationsAtLeast | src/scripts/generate_video_v2.py:739 | slides each lasting at least lo sum to at least n times lo |
| VideoV2.VoicedPropsLonger | src/scripts/generate_video_v2.py:574-726 | after the TTS step every props slide lasts longer than the padding, so the video lasts more than n times the padding |
| SlideVideo.PyFloorDiv | src/scripts/generate_slide_video.py:537 | Python's `//` rounds toward minus infinity for either sign of divisor |
| SlideVideo.MaxSlides | src/scripts/generate_slide_video.py:536-537 | for a positive slide duration, the most slides that fit in 30 seconds |
| SlideVideo.CapTarget | src/scripts/generate_slide_video.py:538 | the target is the smaller of the requested count and the cap |
| SlideVideo.Capped | src/scripts/generate_slide_video.py:579-582 | slides and images are cut to the cap only when there are more slides than fit |
| SlideVideo.CapWithinThirtySeconds | src/scripts/generate_slide_video.py:536-582 | the kept slides are a prefix and last at most 30 s, and so does the capped target |
| SlideVideo.AcceptNarration | src/scripts/generate_slide_video.py:176-229 | audio is kept exactly for a successful reply of at least 10000 bytes; otherwise "failed", or "error" when the call raised, with the too-small message |
| SlideVideo.SaveNarration | src/scripts/generate_slide_video.py:306-349 | the video has sound exactly when audio was given, written, and is a WAV of at least 10000 bytes; the props then name narration.wav |
| SlideVideo.AcceptedAudioKeptIffWav | src/scripts/generate_slide_video.py:319-333 | accepted audio survives step 3 exactly when it has the RIFF and WAVE markers |
| SlideVideo.RefusedAudioSilent | src/scripts/generate_slide_video.py:306-349 | refused audio never gives the video sound |
| SlideVideo.ExistingPaths | src/scripts/generate_slide_video.py:271-276 | kept paths are non-empty and exist, and every such path is kept |
| SlideVideo.CollectExisting | src/scripts/generate_slide_video.py:271-276 | the loop collects ExistingPaths |
| SlideVideo.AvailableImages | src/scripts/generate_slide_video.py:271-284 | the slide images that exist; only when there are none, the generated images that exist |
| SlideVideo.CopiedFiles | src/scripts/generate_slide_video.py:290-298 | every copy is named slide_{k:02d}.png after its position in the available list |
| SlideVideo.CopiedFilesConsecutive | src/scripts/generate_slide_video.py:290-298 | when every copy succeeds, the files are slide_01.png, slide_02.png and so on |
| SlideVideo.CopyImages | src/scripts/generate_slide_video.py:290-298 | the copy loop produces CopiedFiles |
| SlideVideo.PreparePublicFiles | src/scripts/generate_slide_video.py:231-351 | step 3 copies the available images into public/slides and saves the narration as SaveNarration says |
| SlideVideo.NormalizeSlides | src/scripts/generate_slide_video.py:353-395 | one slide per input; the type depends on position only (title first, ending last); headings, subheadings and points default as the source does |
| SlideVideo.BuildRenderProps | src/scripts/generate_slide_video.py:424-435 | the props title is the first heading or "Presentation"; topic, audio file and duration passed through; types by position |
| SlideVideo.TopicOf | src/scripts/generate_slide_video.py:532 | a non-empty topic_id wins, otherwise topic, otherwise "ai_tools" |
| SlideVideo.RenderStep | src/scripts/generate_slide_video.py:424-490 | writing the props precedes the render, which is always followed by the props' removal; success exactly when the render succeeded and the video exists |
| SlideVideo.Steps | src/scripts/generate_slide_video.py:566-660 | the steps run in order from slide generation; a slides error stops at once; a Gemini client that cannot start stops at the audio step with that error and no props; success only after a successful render; every render is directly followed by removing the props file |
| SlideVideo.GenerateSlideVideo | src/scripts/generate_slide_video.py:511-666 | a zero slide duration raises before anything runs; no Node.js returns the error at once; otherwise the steps run and the clean-up comes last, once; an exception at the audio step gives the trace dependencies, slides, audio, clean-up and status "error"; every render is directly followed by removing the props file |
| Slides.ImagePosition | src/scripts/generate_slides.py:415-419 | on a content slide the background sits left exactly when the index is even and right exactly when it is odd |
| Slides.PointLines | src/scripts/generate_slides.py:413 | at most the first five points, each rendered as a "- " bullet of the same point, in order |
| Slides.SlideMarkdownShape | src/scripts/generate_slides.py:389-435 | every slide references its own image with its position; title and ending slides start with the lead directive, content slides with "# " and the heading |
| Slides.DeckChunks | src/scripts/generate_slides.py:378-437 | one markdown chunk per slide, chunk i being slide i rendered at index i |
| Slides.DeckChunksSnoc | src/scripts/generate_slides.py:378-437 | rendering one more slide appends exactly that slide's chunk |
| Slides.SlideChunks | src/scripts/generate_slides.py:378-437 | the loop collects exactly the per-slide chunks |
| Slides.MarpMarkdown | src/scripts/generate_slides.py:321-441 | the document is the topic's colour header followed by the chunks joined with the slide separator |
| Slides.DeckReferencesEveryImage | src/scripts/generate_slides.py:386-441 | the finished document contains the image tag of every slide |
| Slides.CountPenalty | src/scripts/generate_slides.py:519-525 | the slide-count penalty is zero exactly when there are 10 to 15 slides |
| Slides.TextStep | src/scripts/generate_slides.py:533-546 | checking one more slide adds exactly that slide's text and point penalties and issues |
| Slides.CheckTexts | src/scripts/generate_slides.py:533-546 | the loop subtracts the whole deck's text penalty and appends its issues in slide order |
| Slides.SizeStep | src/scripts/generate_slides.py:555-563 | checking one more image adds 5 and one issue exactly when that image is known and under 10 KB |
| Slides.CheckSizes | src/scripts/generate_slides.py:555-563 | the loop subtracts 5 per small image and appends one issue per small image, in order; unknown paths are skipped |
| Slides.CheckCounts | src/scripts/generate_slides.py:516-531 | start from 100, subtract the count penalty and 5 per missing image, with the matching issues |
| Slides.CheckTitle | src/scripts/generate_slides.py:548-553 | a non-empty deck whose first slide is not "title" loses 10 with one issue |
| Slides.ValidateSlides | src/scripts/generate_slides.py:514-569 | the score is the raw score clamped at 0 and within 0..100; passed exactly when the raw score is at least 95; the issues are all checks' issues in order |
| Slides.TextPenaltyZero | src/scripts/generate_slides.py:533-546 | no text penalty exactly when there are no text issues, exactly when no slide is text-heavy or has more than five points |
| Slides.SizePenaltyZero | src/scripts/generate_slides.py:555-563 | no size penalty exactly when there are no size issues, exactly when no image is small |
| Slides.NoIssuesIffFullScore | src/scripts/generate_slides.py:514-569 | the issue list is empty exactly when the raw score is 100 |
| Slides.SmallCount | src/scripts/generate_slides.py:555-563 | the size penalty is five times the number of small images |
| Slides.PassedDeckShape | src/scripts/generate_slides.py:514-569 | a passing deck has 10 to 15 slides, a title first, at most one missing and one small image and at most 5 text penalty |
| Slides.CleanDeckPasses | src/scripts/generate_slides.py:514-569 | 10 to 15 light slides opening with a title, with an image each and none small, score 100 |
| Slides.SlideImages | src/scripts/generate_slides.py:648-671 | the PDF pages are used only when Marp CLI, the export and a converter all succeed; otherwise the generated images |
| Slides.RunStatus | src/scripts/generate_slides.py:677-682 | status "success" exactly when validation passed, "warning" exactly when it did not |
| Slides.Successful | src/scripts/generate_slides.py:616-627 | the kept paths are non-empty and no more than the steps |
| Slides.SuccessfulHolds | src/scripts/generate_slides.py:624-625 | a path is kept exactly when some step returned it and it is non-empty |
| Slides.SuccessfulAll | src/scripts/generate_slides.py:616-627 | when every step returns a non-empty path, all of them are kept in order |
| Slides.CollectGenerated | src/scripts/generate_slides.py:616-630 | the loop keeps exactly the successful paths in slide order, only non-empty ones and never more than requested; when every image succeeds all are kept in order |
| SceneVideo.Scene.constructor | video_generator/main.py:80-88 | a new scene holds its id, narration, prompt and overlay text, with no audio, zero duration and no image |
| SceneVideo.FirstInline | video_generator/main.py:265-272 | the index of the first inline-data part, every earlier part having none; None exactly when no part has inline data |
| SceneVideo.FindInline | video_generator/main.py:265-272 | the loop stops at the first inline-data part, as the reference search does |
| SceneVideo.FirstInlineIs | video_generator/main.py:265-272 | an inline part preceded only by other parts is the one found |
| SceneVideo.FirstInlineNone | video_generator/main.py:265-272 | a reply with no inline part yields no index |
| SceneVideo.ReplyAudio | video_generator/main.py:261-275 | the PCM taken from a reply is never empty |
| SceneVideo.GenerateAudio | video_generator/main.py:261-288 | audio is produced exactly when the first inline part carries non-empty PCM; its length is bytes / 48000 and positive; otherwise the "No audio data in response" error |
| SceneVideo.ReplyImageOutcomes | video_generator/main.py:349-374 | no file exactly when the reply has no inline part; the image is saved exactly when the first inline part decodes, from that part's bytes; a raised call or a failed decode gives a placeholder of the prompt |
| SceneVideo.GenerateImage | video_generator/main.py:313-374 | the file written is the reply's outcome, and success is reported exactly when the reply carried an image or the placeholder was drawn |
| SceneVideo.PlaceholderLines | video_generator/main.py:393-395 | at most five non-empty lines of at most 40 characters |
| SceneVideo.ChunksFromConcat | video_generator/main.py:395 | the 40-character chunks concatenate back to the text they were cut from |
| SceneVideo.ChunksFromIndex | video_generator/main.py:395 | there are ceil(n/40) chunks and chunk k is the k-th 40-character window |
| SceneVideo.PlaceholderLinesSpellPrefix | video_generator/main.py:393-395 | the placeholder lines spell exactly the first 200 characters of the prompt |
| SceneVideo.SceneDuration | video_generator/main.py:582-589 | a scene lasts its loaded clip's length (or its recorded duration when no clip) plus padding, never under 3 s |
| SceneVideo.SceneDurations | video_generator/main.py:628-638 | one duration per scene, each the per-scene rule and at least 3 s |
| SceneVideo.LoadedClip | video_generator/main.py:632-634 | a clip is loaded exactly when the scene has an audio path that exists |
| SceneVideo.ScenePathsDistinct | video_generator/main.py:727 | distinct scene ids give distinct file paths |
| SceneVideo.GenerateAudioAt | video_generator/main.py:726-734 | scenes are voiced in order until the first reply without audio, which stops the run; voiced scenes get their path and duration, later scenes are untouched |
| SceneVideo.GenerateSceneAudio | video_generator/main.py:724-734 | the audio step over the "scene_NN.wav" paths, with the same stop-at-first-failure outcome |
| SceneVideo.ScenePaths | video_generator/main.py:727 | one path per scene, built from the directory, the scene id and the extension |
| SceneVideo.GenerateImagesAt | video_generator/main.py:738-744 | every scene gets its image outcome and its image path whatever the outcome, and nothing else about the scene changes |
| SceneVideo.GenerateSceneImages | video_generator/main.py:736-744 | the image step over the "scene_NN.png" paths, with the same outcome |
| SceneVideo.OutputPath | video_generator/main.py:713-748 | the output is the given name, or "video_" and the timestamp, as an .mp4 in the video directory |
| SceneVideo.BodyTextExtractor.constructor | video_generator/main.py:792-797 | a new extractor has no text, is outside the body and has no current tag |
| SceneVideo.BodyTextExtractor.HandleStartTag | video_generator/main.py:799-802 | the tag becomes current, and the body is entered when the tag is body |
| SceneVideo.BodyTextExtractor.HandleEndTag | video_generator/main.py:804-807 | the current tag is cleared, and the body is left when the tag is body |
| SceneVideo.BodyTextExtractor.HandleData | video_generator/main.py:809-813 | the stripped text is appended only inside the body, outside skipped tags, and when not blank |
| SceneVideo.BodyTextExtractor.Handle | video_generator/main.py:799-813 | one callback appends what the reference extraction keeps for that event in the current state |
| SceneVideo.BodyTextExtractor.Feed | video_generator/main.py:815-816 | feeding a page appends exactly the pieces the reference extraction keeps |
| SceneVideo.BodyExtract | video_generator/main.py:809-813 | no extracted piece is empty |
| SceneVideo.BodyExtractKeepsPagePieces | video_generator/main.py:809-813 | every extracted piece is a stripped data piece of the page |
| SceneVideo.NoBodyNoText | video_generator/main.py:801-812 | a page that never opens body yields no text |
| SceneVideo.EndTagResumes | video_generator/main.py:804-812 | after a skipped tag closes, the following data is kept again |
| Points.HeadingPoint | src/scripts/generate_video.py:84-90 | a point comes only from a "## " line that is not "### ", and never holds a skipped section keyword |
| Points.BulletPoint | src/scripts/generate_video.py:96-100 | a point comes only from a "- " or "* " line, and is longer than 10 and shorter than 100 characters |
| Points.PickedAppend | src/scripts/generate_video.py:84-102 | picking points from two runs of lines is picking from each in turn |
| Points.PickedPrefix | src/scripts/generate_video.py:91-92 | the points picked from the first n lines are a prefix of those picked from all lines, so stopping early keeps a prefix |
| Points.PickedFromSomeLine | src/scripts/generate_video.py:84-102 | every picked point is what the picker returns for some line of the content |
| Points.TakeConcat | src/scripts/generate_video.py:104 | truncating headings followed by bullets keeps the headings first |
| Points.HeadingsFirst | src/scripts/generate_video.py:78-104 | enough headings give the first max_points headings; otherwise all headings followed by bullets up to max_points |
| Points.ExtractedPointOrigin | src/scripts/generate_video.py:78-104 | every extracted point is a heading point or a bullet point of some line |
| Points.PickedStep | src/scripts/generate_video.py:84-102 | scanning one more line adds exactly that line's point, if it has one |
| Points.PickPass | src/scripts/generate_video.py:84-102 | one pass of the loop with early break appends the first picked points until max_points is reached |
| Points.SliceToShort | src/scripts/generate_video.py:104 | the final truncation leaves a short enough list unchanged |
| Points.ExtractPointsFromContent | src/scripts/generate_video.py:78-104 | the two loops give exactly the reference extraction: headings first, bullets after, at most max_points |
| Points.ChoosePoints | src/scripts/generate_video.py:311-322 | given points win; otherwise the extracted points from non-empty content, or the three defaults; never empty |
| Points.ShortProps | src/scripts/generate_video.py:153-157 | the short props are the standard props with isShort set to true and nothing else changed |
| Points.RemotionDir.constructor | src/scripts/generate_video.py:166-167 | the directory starts with the given files |
| Points.GenerateVideo | src/scripts/generate_video.py:106-225 | missing dependencies fail before any file is written; otherwise success exactly when every render exits 0, each video is recorded exactly when it rendered, with its fixed duration and resolution, and both props files are gone afterwards |
| Quality.LengthCriterion | src/scripts/quality_evaluator.py:107-123 | 10, 7, 4, 2 or 0 points at the 20000, 15000, 10000 and 5000 character steps, with one issue below 20000 |
| Quality.StructureCriterion | src/scripts/quality_evaluator.py:125-141 | full marks exactly with an introduction, a conclusion and at least 12 sections; nothing exactly below 5 sections |
| Quality.SourcesCriterion | src/scripts/quality_evaluator.py:143-156 | 8, 5.6, 4 or 0 points at 10, 7 and 5 sources |
| Quality.SeoCriterion | src/scripts/quality_evaluator.py:158-168 | 6, 4.2 or 1.8 points at SEO 85 and 70 |
| Quality.ReadabilityFraction | src/scripts/quality_evaluator.py:170-181 | the readability share lies between 0 and 1 |
| Quality.ReadabilityCriterion | src/scripts/quality_evaluator.py:170-186 | 8 times the readability share, with an issue exactly when the share is under 0.7 |
| Quality.EmojiCriterion | src/scripts/quality_evaluator.py:188-203 | 4 points exactly when the content has no character of the emoji ranges |
| Quality.EngagementHits | src/scripts/quality_evaluator.py:205-215 | at most four engagement elements are found |
| Quality.EngagementCriterion | src/scripts/quality_evaluator.py:205-220 | one point per engagement element, with an issue exactly when fewer than three are found |
| Quality.ArticleCriteria | src/scripts/quality_evaluator.py:107-220 | the article is judged on seven criteria |
| Quality.ArticleScore | src/scripts/quality_evaluator.py:96-220 | the article score lies between 1.8 and 50 |
| Quality.ShortArticleScoreBound | src/scripts/quality_evaluator.py:104-123 | an article under 15000 characters scores at most 44 |
| Quality.ForcedFailNeverInserted | src/scripts/quality_evaluator.py:222-228 | an article under 15000 characters can never reach the pass ratio, so the forced-fail issue is never inserted |
| Quality.ArticleResult | src/scripts/quality_evaluator.py:230-237 | the article result is out of 50 with a score between 0 and 50 |
| Quality.ScoreArticle | src/scripts/quality_evaluator.py:96-220 | the sequential checks add up to the article score, issues and recommendations |
| Quality.EvaluateArticle | src/scripts/quality_evaluator.py:82-237 | the article passes exactly when it scores at least 48.5 of 50 and has at least 15000 characters |
| Quality.SlideCountCriterion | src/scripts/quality_evaluator.py:263-272 | 5 points for 10 to 15 slides, 3 for 8 to 17, otherwise 0 |
| Quality.TextOkCount | src/scripts/quality_evaluator.py:274-281 | no more slides are within the text limit than there are slides |
| Quality.TextIssues | src/scripts/quality_evaluator.py:276-283 | one issue for each slide over the 100-character limit |
| Quality.ImagesCriterion | src/scripts/quality_evaluator.py:290-299 | 5 points exactly with an image per slide, 3.5 exactly with at least 80 % of them, 0 exactly below that |
| Quality.KindCount | src/scripts/quality_evaluator.py:304 | no more slides of a kind than slides |
| Quality.SlideStructureCriterion | src/scripts/quality_evaluator.py:301-313 | 5 points with a title, an ending and five content slides; 2.5 with a title or an ending; otherwise 0 |
| Quality.PenaltyCount | src/scripts/quality_evaluator.py:317-325 | no more penalised images than images |
| Quality.DesignPoints | src/scripts/quality_evaluator.py:315-327 | design points lie between 0 and 5 and are 0 exactly when ten or more images are penalised |
| Quality.MarpCriterion | src/scripts/quality_evaluator.py:329-343 | 5 points exactly when the markdown carries "marp: true", or when there is no markdown but a PDF; otherwise 0 |
| Quality.TextRatio | src/scripts/quality_evaluator.py:285 | the text ratio lies between 0 and 1 |
| Quality.SlidesScore | src/scripts/quality_evaluator.py:253-343 | the slides score lies between 0 and 30 |
| Quality.SlidesResult | src/scripts/quality_evaluator.py:345-353 | the slides result is out of 30 with a score between 0 and 30 |
| Quality.CheckSlideTexts | src/scripts/quality_evaluator.py:274-283 | the loop counts the slides within the limit and lists the others, as the reference definitions do |
| Quality.CheckImageSizes | src/scripts/quality_evaluator.py:317-325 | the loop takes 0.1 off per penalised image and lists the small ones |
| Quality.EvaluateSlides | src/scripts/quality_evaluator.py:239-353 | the slides pass exactly when they score at least 29.1 of 30 |
| Quality.ResolutionCriterion | src/scripts/quality_evaluator.py:382-390 | 5 points for 1920x1080, 3.5 when the resolution mentions 1920 or 1080, otherwise 0 |
| Quality.AudioCriterion | src/scripts/quality_evaluator.py:392-405 | 5 points for audio over 50000 bytes with a script over 100 characters, 3 for any other non-empty audio, otherwise 0 |
| Quality.TimingCriterion | src/scripts/quality_evaluator.py:407-414 | 5 points for 25 to 120 seconds, otherwise 2.5 |
| Quality.TransitionsCriterion | src/scripts/quality_evaluator.py:416-424 | 5 points above 5 MiB, 3.5 above 2 MiB, otherwise 0 |
| Quality.FileSizeCriterion | src/scripts/quality_evaluator.py:426-436 | 5 points exactly for 2 to 100 MiB, 2.5 exactly for any other positive size, 0 exactly for no file |
| Quality.ErrorsCriterion | src/scripts/quality_evaluator.py:438-446 | 5 points for success with the file present, 2.5 for success without it, otherwise 0 |
| Quality.VideoCriteria | src/scripts/quality_evaluator.py:382-446 | the video is judged on six criteria |
| Quality.VideoScore | src/scripts/quality_evaluator.py:369-446 | the video score lies between 2.5 and 30 |
| Quality.VideoResult | src/scripts/quality_evaluator.py:448-456 | the video result is out of 30 with a score between 0 and 30 |
| Quality.EvaluateVideo | src/scripts/quality_evaluator.py:355-456 | the video passes exactly when it scores at least 29.1 of 30 |
| Quality.RoundHalfEven | src/scripts/quality_evaluator.py:484 | the rounded value is within one half of the input, and ties go to the even neighbour |
| Quality.CategoryTenths | src/scripts/quality_evaluator.py:484-512 | one rounded percentage per category, each that category's own |
| Quality.Categories | src/scripts/quality_evaluator.py:479-518 | one to three categories, the article first |
| Quality.TotalsSnoc | src/scripts/quality_evaluator.py:489-518 | adding a category adds its score and its maximum to the totals |
| Quality.OverallPassedIffRatio | src/scripts/quality_evaluator.py:520-522 | the overall pass holds exactly when the ratio rounds to at least 97.0 % |
| Quality.Tagged | src/scripts/quality_evaluator.py:527-531 | each item is prefixed with its bracketed category, one for one and in order |
| Quality.AllIssuesCount | src/scripts/quality_evaluator.py:524-531 | the collected issues number the sum of the categories' issues |
| Quality.FormatTenths | src/scripts/quality_evaluator.py:547-553 | a percentage prints with one decimal digit after the point, with a minus sign exactly when negative |
| Quality.FormatTenthsRoundTrip | src/scripts/quality_evaluator.py:547-553 | parsing a printed percentage gives the percentage back |
| Quality.PassSummaryReadsBack | src/scripts/quality_evaluator.py:549-550 | a passing summary starts with the pass wording followed by the percentage |
| Quality.FailSummaryReadsBack | src/scripts/quality_evaluator.py:551-553 | a failing summary does not start with the pass wording and carries the percentage after the fail wording |
| Quality.SummaryReadsBack | src/scripts/quality_evaluator.py:547-553 | from a summary one can read back whether it passed and the exact percentage |
| Quality.EvaluateAll | src/scripts/quality_evaluator.py:458-545 | the report holds the categories, their rounded percentages, the totals, the overall pass and the tagged issues and recommendations |
| Quality.EvaluateCategories | src/scripts/quality_evaluator.py:475-518 | the loop collects the categories and sums their scores and maxima |
| Quality.CollectTagged | src/scripts/quality_evaluator.py:524-531 | the loop collects every category's tagged issues and recommendations in order |
| Quality.TotalsBounded | src/scripts/quality_evaluator.py:476-518 | the maximum is between 50 and 110 and the total between 0 and the maximum |
| Quality.PassedScoresSum | src/scripts/quality_evaluator.py:489-522 | when every category passes, the total reaches 97 % of the maximum |
| Quality.AllCategoriesPassOverallPasses | src/scripts/quality_evaluator.py:520-522 | when every category passes, the overall evaluation passes |
| Quality.OverallIgnoresCategoryFlags | src/scripts/quality_evaluator.py:520-522 | the overall pass depends only on the totals: an article that fails can still pass overall |
| Content.FullUrl | src/scripts/generate_content.py:81-83 | the completed URL starts with "http" and ends with the given URL, and equals it exactly when it already started with "http" |
| Content.SourceLine | src/scripts/generate_content.py:76-89 | a rendered source is a "- " bullet; a source is dropped exactly when it is neither a dict nor a string, or a dict with no url or uri |
| Content.SourceLines | src/scripts/generate_content.py:75-89 | at most one bullet line per source |
| Content.SourceLinesAppend | src/scripts/generate_content.py:76-89 | rendering two source lists is rendering each in turn |
| Content.TextSourcesAllRender | src/scripts/generate_content.py:85-89 | every string source yields a line |
| Content.SourcesText | src/scripts/generate_content.py:72-91 | no sources give the request for references; sources with nothing usable give the no-sources text; otherwise the lines joined by newlines |
| Content.ExtractSourcesText | src/scripts/generate_content.py:62-91 | the loop produces exactly the reference sources text |
| Content.SourceLineOneLine | src/scripts/generate_content.py:76-89 | a source whose title, url and text hold no newline renders to a line without one |
| Content.SourceLinesOneLine | src/scripts/generate_content.py:76-89 | sources without newlines render to lines without newlines |
| Content.SourcesTextSplitsBack | src/scripts/generate_content.py:91 | splitting the sources text at newlines gives back the rendered lines |
| Content.StripEmoji | src/scripts/generate_content.py:212-223 | the cleaned text is no longer and holds no character of the emoji class |
| Content.KeepKeepsOthers | src/scripts/generate_content.py:223 | removing characters of a class keeps every other character present |
| Content.StripEmojiKeepsOthers | src/scripts/generate_content.py:212-223 | a character outside the emoji class survives stripping exactly when it was there |
| Content.StripEmojiIdempotent | src/scripts/generate_content.py:212-223 | stripping twice is stripping once |
| Content.StripEmojiAppend | src/scripts/generate_content.py:212-223 | stripping a concatenation strips each part |
| Content.JapaneseInEmojiClass | src/scripts/generate_content.py:219 | every kana and CJK character falls inside the range U+24C2 to U+1F251 |
| Content.ContainsFirst | src/scripts/generate_content.py:226 | a text containing a word contains its first character |
| Content.StrippedNeverHoldsHeading | src/scripts/generate_content.py:212-226 | as written, no stripped reply can contain the Japanese sources heading |
| Content.StripEmojiIntended | src/scripts/generate_content.py:212-223 | the cleaned text is no longer and holds no character of the emoji blocks the comments name |
| Content.KeepKeepsContained | src/scripts/generate_content.py:223 | removing characters a word does not use keeps the word |
| Content.PrefixContained | src/scripts/generate_content.py:226 | a text contains its own prefix |
| Content.StripEmojiIntendedKeepsJapanese | src/scripts/generate_content.py:212-226 | with the intended class, Japanese words in the reply survive stripping |
| Content.SpacesBlocked | src/scripts/generate_content.py:249 | a non-space before the next newline stops the optional trailing spaces from reaching the newline |
| Content.LazyCapture | src/scripts/generate_content.py:249 | the lazy capture is the shortest run of at least one character, with no newline, that reaches a line end |
| Content.QuotedCapture | src/scripts/generate_content.py:249 | a capture after an optional quote is non-empty and has no newline |
| Content.SpaceRun | src/scripts/generate_content.py:249 | the whitespace run after the key is maximal |
| Content.AfterKey | src/scripts/generate_content.py:249 | a value captured after the key and its spaces is non-empty and has no newline |
| Content.MatchAt | src/scripts/generate_content.py:249 | a match at a position starts with the key there, with a non-empty single-line value |
| Content.SearchFrom | src/scripts/generate_content.py:249 | the search finds the key somewhere after the position, with a non-empty single-line value |
| Content.FieldValue | src/scripts/generate_content.py:249-254 | a field value is found only when the text contains the key, and is non-empty and single-line |
| Content.LazyCaptureReachesEnd | src/scripts/generate_content.py:249 | a plain value followed by a line end is captured whole |
| Content.FieldValueOfLine | src/scripts/generate_content.py:249-254 | a leading "key value" line, bare or quoted, gives back exactly its value |
| Content.FieldValueAt | src/scripts/generate_content.py:249-254 | a field at the start of a text, bare or quoted, gives back exactly its value |
| Content.ArticleOf | src/scripts/generate_content.py:225-267 | the word count is the content length; the title is the `title:` capture when there is one, else the topic name with the suffix; the description is the `description:` capture or ""; with sources and no sources heading the content is the reply with trailing whitespace removed followed by the sources section, otherwise the reply unchanged; with sources the content always holds the heading |
| Content.ArticleTitleOfLine | src/scripts/generate_content.py:252-254 | a front-matter line `title: "t"` (quoted or not) gives the article title t |
| Content.SectionHoldsHeading | src/scripts/generate_content.py:226-246 | the appended section carries the sources heading |
| Content.ArticleAsWritten | src/scripts/generate_content.py:209-267 | the word count is the content length |
| Content.AsWrittenAlwaysAppends | src/scripts/generate_content.py:212-246 | as written, every article with sources gets the section appended, even when the reply already had one |
| Content.GenerateArticle | src/scripts/generate_content.py:209-267 | with the intended emoji class, the word count is the content length; a stripped reply that already holds the sources heading is kept as it is; otherwise, with sources, the section is appended to the reply with trailing whitespace removed |
| Content.ArticleKeepsExistingSection | src/scripts/generate_content.py:212-246 | with the intended class, a reply that already holds the section is kept as stripped, with no second section |
| Publish.KeepSlugChars | src/scripts/publish.py:41 | only word characters, spaces and hyphens are kept |
| Publish.DropRun | src/scripts/publish.py:43 | dropping a run of hyphens and spaces leaves a suffix that starts with neither, shorter when the text started with one |
| Publish.Collapse | src/scripts/publish.py:43 | the collapsed text is no longer than the input and starts with a hyphen exactly when the input started with a run of hyphens and spaces |
| Publish.CollapseShape | src/scripts/publish.py:43 | after every run of hyphens and spaces becomes one hyphen there are no spaces, no double hyphens and only slug characters |
| Publish.PrependShape | src/scripts/publish.py:43 | a word character, or a hyphen before a text not starting with one, keeps a clean slug text clean |
| Publish.TrimDashStart | src/scripts/publish.py:43 | stripping leading hyphens leaves a suffix that does not start with one |
| Publish.TrimDashEnd | src/scripts/publish.py:43 | stripping trailing hyphens leaves a prefix that does not end with one |
| Publish.SlicePreserves | src/scripts/publish.py:43-45 | any slice of a clean slug is still clean |
| Publish.TrimDashes | src/scripts/publish.py:43 | stripping hyphens at both ends keeps the slug clean and leaves no hyphen at either end |
| Publish.Slugify | src/scripts/publish.py:36-45 | the slug is non-empty, at most 50 characters, starts with no hyphen, has no spaces or double hyphens, and is "untitled" or made of slug characters; it is "untitled" whenever the title has no word character outside `[-\s]`, and otherwise the cleaned text cut to 50 |
| Publish.CleanSlugEmptyIff | src/scripts/publish.py:41-45 | the cleaned text is empty exactly when the title has no word character outside `[-\s]` |
| Publish.KeepHasLetter | src/scripts/publish.py:41 | removing `[^\w\s-]` keeps a word character outside `[-\s]` exactly when the title has one |
| Publish.CollapseHasLetter | src/scripts/publish.py:43 | collapsing the hyphen and whitespace runs keeps such a character exactly when the text has one |
| Publish.HasLetterAt | src/scripts/publish.py:41-45 | the recursive letter test holds exactly when some index holds a word character outside `[-\s]` |
| Publish.CleanSlug | src/scripts/publish.py:41-43 | the cleaned text has no spaces, no double hyphens, only slug characters and no leading hyphen |
| Publish.CutSlugShape | src/scripts/publish.py:45 | cutting a clean slug at 50 characters keeps it clean |
| Publish.EmptySlugShape | src/scripts/publish.py:45 | the fallback "untitled" is itself a clean slug |
| Publish.DropRunStops | src/scripts/publish.py:43 | a single hyphen followed by a slug character is dropped alone |
| Publish.CollapseFixes | src/scripts/publish.py:43 | collapsing an already clean text changes nothing |
| Publish.SlugifyFixesSlugs | src/scripts/publish.py:36-45 | slugifying a slug gives the same slug |
| Publish.FrontMatterLines | src/scripts/publish.py:60-78 | nine lines, one more with tags and one more with an image, opening with the separator, layout, quoted title and description, date and categories |
| Publish.GenerateFrontMatter | src/scripts/publish.py:47-80 | the front matter is the lines joined by newlines |
| Publish.JoinOpens | src/scripts/publish.py:80 | joined lines opening with the separator and the layout start with them |
| Publish.JoinCloses | src/scripts/publish.py:77-80 | joined lines ending with the separator and an empty line end with the separator and a newline |
| Publish.FrontMatterFrame | src/scripts/publish.py:60-80 | the front matter starts with the separator and the layout and ends with the separator and a newline |
| Publish.FrontMatterSplitsBack | src/scripts/publish.py:60-80 | with single-line fields, splitting the front matter at newlines gives back its lines |
| Publish.JoinNoNewline | src/scripts/publish.py:66-70 | joining single-line items with ", " gives a single line |
| Publish.ShortTitle | src/scripts/publish.py:206-208 | at most 60 characters: short titles unchanged, long ones their first 57 characters and "..." |
| Publish.ShortTitleIdempotent | src/scripts/publish.py:206-208 | shortening twice is shortening once |
| Publish.DashesToSlashes | src/scripts/publish.py:121-179 | the same text with every hyphen turned into a slash |
| Publish.NatToStringBelow | src/scripts/publish.py:121 | a number below 10^k prints in at most k digits |
| Publish.UrlFollowsFileName | src/scripts/publish.py:119-179 | for the same date and slug the public URL is the file name's date with slashes and its slug, under the base URL |
| Publish.Site.constructor | src/scripts/publish.py:32-34 | a new site has no images and no posts |
| Publish.CopyImages | src/scripts/publish.py:82-107 | nothing is copied exactly when there is no hero image or its file is missing; otherwise the copy is named slug and file name, added to the site's images, and its URL is returned; posts are untouched |
| Publish.CreatePostFile | src/scripts/publish.py:109-138 | the post is written under the dated slug name as front matter followed by the content; images are untouched |
| Publish.RunDescription | src/scripts/publish.py:202 | the description is the article's (or "") cut to its first 120 characters |
| Publish.PublishToGitHubPages | src/scripts/publish.py:182-244 | exactly one post file is written or replaced, holding the front matter of the shortened title, the description cut to 120, the categories (default 未分類), the tags (default none) and the copied hero image, followed by the content; the site's images gain the copied hero image; success exactly when the push succeeds, and only then with the public URL and the success message; otherwise "Git push failed" |
| PostStore.IndexOf | dashboard/api/server.py:112-115 | the position of the first post with the id, none before it; -1 exactly when no post has it |
| PostStore.NewPost | dashboard/api/server.py:90-102 | a new post is a draft with no views, not yet published, with id "post_" and the stamp and the creation time |
| PostStore.WithoutId | dashboard/api/server.py:415 | no kept post has the id, every post without it is kept, and the length is unchanged exactly when no post had it |
| PostStore.WithoutIdKeepsAll | dashboard/api/server.py:415-418 | filtering an id no post has changes nothing |
| PostStore.WithoutIdAppend | dashboard/api/server.py:415 | filtering a concatenation filters each part |
| PostStore.Store.constructor | dashboard/api/server.py:65-74 | the store starts with the loaded posts |
| PostStore.Store.CreatePost | dashboard/api/server.py:86-107 | the returned post is the new draft, appended to the store when the save succeeds |
| PostStore.Store.GetPostById | dashboard/api/server.py:109-115 | the first post with the id, or none when no post has it |
| PostStore.Store.PublishById | dashboard/api/server.py:117-124 | an unknown id fails with nothing changed; otherwise the outcome is the save's, and a successful save publishes exactly the first post with the id |
| PostStore.Store.DeletePost | dashboard/api/server.py:409-420 | 404 exactly when no post has the id, otherwise 200; a saved deletion removes every post with the id |
| PostStore.Store.PublishPost | dashboard/api/server.py:355-383 | 404 for an unknown id with nothing changed, 500 when the save fails, 200 with the first matching post published |
| PostStore.CountStatus | dashboard/api/server.py:131-132 | no more posts have a status than there are posts |
| PostStore.PublishedAndDraftsFit | dashboard/api/server.py:130-132 | published and draft posts together number at most the total |
| PostStore.StatsOf | dashboard/api/server.py:126-140 | the total is the number of posts, and published plus drafts do not exceed it |
| PostStore.CreateCountsOneDraft | dashboard/api/server.py:86-140 | creating a post adds one to the total and one draft, and leaves published and views unchanged |
| PostStore.CountStatusUpdate | dashboard/api/server.py:122-132 | replacing one post changes a status count by that post's old and new status only |
| PostStore.SumViewsUpdate | dashboard/api/server.py:122-133 | replacing one post changes the view total by that post's old and new views only |
| PostStore.PublishMovesDraft | dashboard/api/server.py:355-378 | publishing a draft moves one post from drafts to published, with the total and the views unchanged |
| PostStore.StrLeTotal | dashboard/api/server.py:168 | any two creation times compare one way or the other |
| PostStore.StrLeTrans | dashboard/api/server.py:168 | the creation-time order is transitive |
| PostStore.AllBelowHead | dashboard/api/server.py:168 | after inserting below the head, every later post is no newer than the head |
| PostStore.InsertDesc | dashboard/api/server.py:168 | inserting into a newest-first list keeps it newest-first and adds exactly the new post |
| PostStore.SortByCreatedDesc | dashboard/api/server.py:162-169 | the listed posts are newest first by creation time, a permutation of the stored posts |
| Gemini.LowerChar | src/lib/gemini_client.py:103 | an ASCII capital becomes its small letter, every other character is unchanged |
| Gemini.Lower | src/lib/gemini_client.py:103 | the lowered text has the same length and lowers every character |
| Gemini.ContentConfig | src/lib/gemini_client.py:97-111 | the thinking budget is set to 0 exactly when thinking is off and the lowered model name contains "flash", and is never anything else; search tools are present exactly when search is on, and are then the one Google Search tool |
| Gemini.LowerIdempotent | src/lib/gemini_client.py:103 | lowering twice is lowering once |
| Gemini.LowerContains | src/lib/gemini_client.py:103 | a text containing a word still contains it once both are lowered |
| Gemini.FlashInAnyCase | src/lib/gemini_client.py:102-105 | "flash", "Flash" or "FLASH" anywhere in the model name turns thinking off |
| Gemini.FlashModelThinksOff | src/lib/gemini_client.py:102-105 | the Gemini 3 Flash preview model runs with thinking off unless thinking is asked for |
| Gemini.SourceRefOf | src/lib/gemini_client.py:244-248 | the source's title, uri and snippet, each "" when missing, with the uri as url |
| Gemini.SourceRefs | src/lib/gemini_client.py:243-248 | one reference per grounding source, in order |
| Gemini.ExtractSources | src/lib/gemini_client.py:239-249 | no grounding metadata gives no sources; otherwise the loop gives exactly one reference per source |
| Gemini.Finished | src/lib/gemini_client.py:167-187 | a completed interaction gives the last output's text and its sources; a failed one gives no content, no sources and its error |
| Gemini.TimedOut | src/lib/gemini_client.py:193-200 | a timeout has status "timeout", no content, no sources and an error message |
| Gemini.PollsIsCeiling | src/lib/gemini_client.py:163-190 | the number of polls is the least count whose elapsed time reaches the timeout |
| Gemini.PollFindsFirstTerminal | src/lib/gemini_client.py:163-200 | the research times out exactly when no reply within the poll budget is completed or failed; otherwise the result is that of the first such reply |
| Gemini.PollTimesOutIff | src/lib/gemini_client.py:163-200 | the research times out exactly when no reply within the poll budget is completed or failed |
| Gemini.PollFinishesFirst | src/lib/gemini_client.py:163-200 | a research that does not time out ends with the result of the first completed or failed reply within the poll budget |
| Gemini.SyncDeepResearch | src/lib/gemini_client.py:137-200 | the loop returns the reference polling result, polls no more than the budget, uses the whole budget on a timeout, and starts every poll before the timeout |
| Gemini.ImagesOf | src/lib/gemini_client.py:322-343 | the images kept are exactly the inline parts without text that hold more than 1024 bytes |
| Gemini.LastText | src/lib/gemini_client.py:324-327 | a text response is present exactly when some part has text, and is then non-empty |
| Gemini.ImagesOfAppend | src/lib/gemini_client.py:324-343 | scanning two runs of parts collects each run's images in turn |
| Gemini.GenerateImage | src/lib/gemini_client.py:283-357 | no candidate gives no image and no text; otherwise the loop over the first candidate gives exactly its images and its last text |

## Left out

- Calls to the Gemini text, image, TTS and Deep Research services are not made: their replies are inputs (PCM lengths, inline image parts, status replies, generated text).
- Subprocesses are not run (Marp CLI, `node render.mjs`, npm, pdftoppm, git, dependency probes): their outcome is a boolean or an exit code given as input.
- File-system and JSON persistence are not modelled: file existence, file sizes, successful writes and copies, and the loaded posts are inputs; the site and the Remotion directory are in-memory classes.
- Pixel work is not modelled (Pillow drawing and fonts, LANCZOS resampling, the Ken Burns zoom, MoviePy composition and encoding, PDF rasterisation); only the integer dimensions and the gradient's row colours are.
- Encodings are not modelled: WAV writing, Base64 (section 4 of RFC 4648) and data URLs (section 3 of RFC 2397) are given as the encoded text, and string-typed inline data is taken as already decoded bytes.
- Python floats are exact reals here: `int(x)` is the floor of a non-negative real, `round(x, 1)` rounds the exact value half to even, and the printed percentage is its one-decimal form; binary rounding error is not modelled.
- HTML tokenising is not modelled: a page is the list of parser callbacks it produces.
- The asyncio sleeps, rate-limit delays, thread offloading and all logging are left out: they schedule or report, and change no result.
- Prompt texts sent to the models and the parsing of the models' JSON answers are left out; the parsed answer is an input.
- Setup and test scripts, the LLM orchestration scripts, `video_generator/integrate.py`, `src/lib/voicepeak_client.py` and `src/lib/timezone.py` are not part of this model.
- Publish.Slugify: NFKC normalisation (section 1.2 of Unicode Standard Annex #15), `str.lower` and the regex class `\w` are not computed; the folded text and a word-character predicate are inputs.
- Publish.PublishToGitHubPages: an exception from the file or image copy (the `except Exception` result) is not modelled; a failed push is the `pushed` input.
- Publish.CopyImages: a copy that raises is not modelled; a missing hero file is a path outside `existing`.
- Gemini.Lower: lowers ASCII letters only, where Python's `str.lower` covers all of Unicode; the model names it is applied to are ASCII.
- Gemini.SyncDeepResearch: requires a positive poll interval. With a zero interval the code polls until a terminal status arrives and never times out; with a negative one `time.sleep` raises `ValueError` at the first non-terminal reply (src/lib/gemini_client.py:189). Neither case is modelled.
- Gemini.GenerateImage: the re-raised exception of a failed call is not modelled, and string image data is taken as decoded.
- Gemini.ContentConfig: the temperature and token limit are passed through without range checks, as the code does.
- PostStore.SortByCreatedDesc: proves newest-first order and a permutation, but not the stability of Python's sort for equal timestamps.
- PostStore.Store.PublishById: `update_post` is modelled only with the status and `published_at` keys, the only update any caller sends.
- PostStore.NewPost: the `metadata`, `seo_data`, `images` and `review_data` fields are not carried; nothing in the store reads them.
- PostStore.Store.CreatePost: the clock reading and the id stamp are inputs, so two posts created in the same second share an id exactly as in the code, and the model does not rule that out.
- SceneVideo.GenerateSceneAudio: requires the scenes to be distinct objects, as the script step builds each one fresh; aliasing between scenes is not modelled.
- SceneVideo.GenerateSceneImages: requires distinct scenes for the same reason.
- SceneVideo.GenerateAudio: string inline data is taken as decoded bytes, and the WAV file written is not modelled.
- MarpVideo.AssembleSlides: requires distinct, freshly created slides without images, as the content step creates them.
- MarpVideo.SynthesizeAll: requires distinct slides; a PCM length of 0 stands for a reply without audio.
- MarpVideo.ConvertPages: requires positive page sizes, which every rasterised page has.
- Letterbox.Fit: requires positive target and image sizes; a zero size, which would raise in the code, is not modelled.
- VideoV2.ParseHexByte: reads only slices of one or two hex digits; Python's `int(s, 16)` also reads a sign or surrounding whitespace, which never occurs since the colours are constants.
- VideoV2.CreateGradient: the row colours are computed on exact reals before the truncation to int, so float rounding in the blend is not modelled.

## Findings

| source | as written | input that shows it | evidently intended | confidence | as-written member | corrected member |
|---|---|---|---|---|---|---|
| src/scripts/generate_content.py:212-223 | the emoji class includes the range U+24C2 to U+1F251, which covers kana and every CJK ideograph, so stripping deletes the Japanese text and the heading "参考文献・引用元" can never survive; every article with sources then gets a second sources section | any reply containing Japanese text, e.g. one that already ends with the "参考文献・引用元" section | keep Japanese text (CJK punctuation, kana, enclosed CJK and compatibility signs U+3000 to U+33FF, CJK ideographs, compatibility ideographs and full-width forms) out of the class, so an existing sources section is kept and not duplicated | not executed | Content.StrippedNeverHoldsHeading | Content.StripEmojiIntendedKeepsJapanese |
