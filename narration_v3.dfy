/**
 * Narration scripts and TTS bookkeeping of the V3 video generator
 * (src/scripts/generate_video_v3.py): padding and truncating the model's
 * narration list to one entry per slide, the fallback narration list, and the
 * per-slide audio results of the TTS step, whose synthesis is an input here.
 */
module NarrationV3 {
  import opened Wrappers
  import opened Text

  /** A narration entry `{"slide_id", "heading", "narration"}`; keys a model answer may lack are options. */
  datatype Narration = Narration(slideId: Option<int>, heading: string, narration: Option<string>)

  const PaddingText: string := "続いてのポイントをご紹介します。"
  const IntroText: string := "今回のテーマについて解説していきます。"
  const SummaryText: string := "以上が今回のまとめです。ぜひブログ記事もご覧ください。"

  /** The entry appended for 1-based slide position `k` when the model returned too few. */
  function Placeholder(k: nat): (n: Narration)
    ensures n.slideId == Some(k) && n.narration == Some(PaddingText)
  {
    Narration(Some(k), "スライド" + NatToString(k), Some(PaddingText))
  }

  /**
   * NarrationGenerator.generate after parsing: pads with placeholders numbered by
   * position until there are `slideCount` entries, then keeps the first `slideCount`.
   */
  method PadNarrations(narrations: seq<Narration>, slideCount: nat) returns (r: seq<Narration>)
    ensures |r| == slideCount
    ensures forall i :: 0 <= i < slideCount && i < |narrations| ==> r[i] == narrations[i]
    ensures forall i :: |narrations| <= i < slideCount ==> r[i] == Placeholder(i + 1)
  {
    var ns := narrations;
    while |ns| < slideCount
      invariant |narrations| <= |ns| && ns[..|narrations|] == narrations
      invariant |ns| <= Max(slideCount, |narrations|)
      invariant forall i :: |narrations| <= i < |ns| ==> ns[i] == Placeholder(i + 1)
    {
      ns := ns + [Placeholder(|ns| + 1)];
    }
    r := Take(ns, slideCount);
  }

  /** The text of fallback narration `i` (1-based) out of `n`. */
  function FallbackText(i: nat, n: nat): string
    requires i >= 1
  {
    if i == 1 then IntroText
    else if i == n then SummaryText
    else "ポイント" + NatToString(i - 1) + "について説明します。"
  }

  /**
   * _create_fallback_narrations: ids 1..n, headings "スライド{i}", the intro text
   * first, the summary text last (when there are two or more), numbered points between.
   */
  method FallbackNarrations(n: nat) returns (r: seq<Narration>)
    ensures |r| == n
    ensures forall i :: 0 <= i < n ==>
      r[i].slideId == Some(i + 1) && r[i].heading == "スライド" + NatToString(i + 1)
    ensures n >= 1 ==> r[0].narration == Some(IntroText)
    ensures n >= 2 ==> r[n - 1].narration == Some(SummaryText)
    ensures forall i :: 0 < i < n - 1 ==>
      r[i].narration == Some("ポイント" + NatToString(i) + "について説明します。")
  {
    r := [];
    var i := 1;
    while i <= n
      invariant 1 <= i <= n + 1 && |r| == i - 1
      invariant forall j :: 0 <= j < |r| ==>
        r[j] == Narration(Some(j + 1), "スライド" + NatToString(j + 1), Some(FallbackText(j + 1, n)))
    {
      r := r + [Narration(Some(i), "スライド" + NatToString(i), Some(FallbackText(i, n)))];
      i := i + 1;
    }
  }

  /** What the TTS call did for one slide: raised, or returned PCM of some length (and the encoded WAV). */
  datatype SynthOutcome = SynthFailed | Synthesized(pcmLength: nat, encodedWav: string)

  /** One TTSGenerator.generate_all result; the timing step reads these keys with defaults. */
  datatype AudioResult = AudioResult(
    slideId: Option<int>, audioPath: Option<string>, audioBase64: Option<string>,
    duration: Option<real>, narration: Option<string>)

  const DefaultAudioDuration: real := 5.0
  /** 24 kHz, 16-bit mono: bytes of PCM per second. */
  const PcmBytesPerSecond: nat := 24000 * 2

  /**
   * The result for narration number `i`: synthesis is attempted only for a non-blank
   * text; `_synthesize` raises on empty PCM, and any failure keeps the 5.0 s default.
   */
  function AudioFor(n: Narration, i: nat, s: SynthOutcome): (r: AudioResult)
    ensures r.slideId == Some(n.slideId.GetOr(i + 1)) && r.narration == Some(n.narration.GetOr(""))
    ensures r.duration.Some? && r.duration.value > 0.0
    ensures r.audioPath.Some? <==> (!AllSpace(n.narration.GetOr("")) && s.Synthesized? && s.pcmLength > 0)
    ensures r.audioPath.Some? ==> r.duration == Some(s.pcmLength as real / PcmBytesPerSecond as real)
    ensures r.audioPath.None? ==> r.duration == Some(DefaultAudioDuration) && r.audioBase64.None?
  {
    var id := n.slideId.GetOr(i + 1);
    var text := n.narration.GetOr("");
    if !AllSpace(text) && s.Synthesized? && s.pcmLength > 0 then
      AudioResult(Some(id), Some("audio/slide_" + Pad2Int(id) + ".wav"),
        Some("data:audio/wav;base64," + s.encodedWav),
        Some(s.pcmLength as real / PcmBytesPerSecond as real), Some(text))
    else
      AudioResult(Some(id), None, None, Some(DefaultAudioDuration), Some(text))
  }

  /** TTSGenerator.generate_all: one result per narration, in order; `synth[i]` is what the TTS call for entry `i` did. */
  method GenerateAll(narrations: seq<Narration>, synth: seq<SynthOutcome>) returns (results: seq<AudioResult>)
    requires |synth| == |narrations|
    ensures |results| == |narrations|
    ensures forall i :: 0 <= i < |narrations| ==> results[i] == AudioFor(narrations[i], i, synth[i])
  {
    results := [];
    for k := 0 to |narrations|
      invariant |results| == k
      invariant forall i :: 0 <= i < k ==> results[i] == AudioFor(narrations[i], i, synth[i])
    {
      results := results + [AudioFor(narrations[k], |results|, synth[k])];
    }
  }
}
