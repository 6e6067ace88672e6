/**
 * The deterministic parts of the Gemini client (src/lib/gemini_client.py): the
 * request configuration, the Deep Research polling loop, the mapping of grounding
 * sources, and the filter that keeps the generated images. The API itself is an
 * input: the replies to the status requests are an oracle `reply(n)` for the n-th
 * request, and a generation response is the list of its parts.
 */
module Gemini {
  import opened Wrappers
  import opened Text

  const ModelPro := "gemini-3-pro-preview"
  const ModelFlash3 := "gemini-3-flash-preview"
  const ModelImage := "gemini-2.5-flash-image"

  // ----- generate_content's configuration -----

  datatype Tool = GoogleSearch

  /** The keys of the generation config; an absent key is None. */
  datatype GenerationConfig = GenerationConfig(temperature: real, maxOutputTokens: int,
                                               thinkingBudget: Option<int>, tools: Option<seq<Tool>>)

  /** `str.lower()` on ASCII letters. */
  function LowerChar(c: char): (r: char)
    ensures 'A' <= c <= 'Z' ==> r as int == c as int + 32
    ensures !('A' <= c <= 'Z') ==> r == c
  {
    if 'A' <= c <= 'Z' then (c as int + 32) as char else c
  }

  function Lower(s: string): (r: string)
    ensures |r| == |s| && forall i :: 0 <= i < |s| ==> r[i] == LowerChar(s[i])
  {
    seq(|s|, i requires 0 <= i < |s| => LowerChar(s[i]))
  }

  /**
   * Thinking is switched off (budget 0) exactly for a flash model when thinking
   * mode is off; the search tool is listed exactly when search is enabled.
   */
  function ContentConfig(model: string, enableSearch: bool, temperature: real, maxTokens: int,
                         thinkingMode: bool): (c: GenerationConfig)
    ensures c.thinkingBudget == Some(0) <==> !thinkingMode && Contains(Lower(model), "flash")
    ensures c.thinkingBudget.None? || c.thinkingBudget == Some(0)
    ensures c.tools.Some? <==> enableSearch
    ensures c.tools.Some? ==> c.tools.value == [GoogleSearch]
    ensures c.temperature == temperature && c.maxOutputTokens == maxTokens
  {
    GenerationConfig(temperature, maxTokens,
                     if !thinkingMode && Contains(Lower(model), "flash") then Some(0) else None,
                     if enableSearch then Some([GoogleSearch]) else None)
  }

  /** Lower-casing twice is lower-casing once. */
  lemma LowerIdempotent(s: string)
    ensures Lower(Lower(s)) == Lower(s)
  {
    forall i | 0 <= i < |s|
      ensures Lower(Lower(s))[i] == Lower(s)[i]
    {
      assert Lower(s)[i] == LowerChar(s[i]);
    }
  }

  /** A piece of the name is still found, lower-cased, in the lower-cased name. */
  lemma {:induction false} LowerContains(s: string, p: string)
    requires Contains(s, p)
    ensures Contains(Lower(s), Lower(p))
    decreases |s|
  {
    if StartsWith(s, p) {
      assert Lower(s)[..|p|] == Lower(s[..|p|]);
    } else {
      assert Lower(s)[1..] == Lower(s[1..]);
      LowerContains(s[1..], p);
    }
  }

  /** A model named "Flash" or "FLASH" in any position runs with thinking off too. */
  lemma FlashInAnyCase(model: string, p: string, enableSearch: bool, temperature: real, maxTokens: int)
    requires p == "flash" || p == "Flash" || p == "FLASH"
    requires Contains(model, p)
    ensures ContentConfig(model, enableSearch, temperature, maxTokens, false).thinkingBudget == Some(0)
  {
    LowerContains(model, p);
    assert Lower(p) == "flash";
  }

  /** The flash model the SEO and review steps use runs with thinking off. */
  lemma FlashModelThinksOff(enableSearch: bool, temperature: real, maxTokens: int)
    ensures ContentConfig(ModelFlash3, enableSearch, temperature, maxTokens, false).thinkingBudget == Some(0)
  {
    ContainsMiddle("gemini-3-", "flash", "-preview");
    assert "gemini-3-" + "flash" + "-preview" == ModelFlash3;
    FlashInAnyCase(ModelFlash3, "flash", enableSearch, temperature, maxTokens);
  }

  // ----- _extract_sources -----

  /** A source of the grounding metadata, as the key-value record the API sends. */
  type Record = map<string, string>

  datatype SourceRef = SourceRef(title: string, url: string, snippet: string)

  /** The value under `key`, or the empty string when it is absent. */
  function Field(m: Record, key: string): string {
    if key in m then m[key] else ""
  }

  /** A grounding source as the research result lists it: its "uri" becomes the url. */
  function SourceRefOf(m: Record): (r: SourceRef)
    ensures r.url == (if "uri" in m then m["uri"] else "")
    ensures r.title == (if "title" in m then m["title"] else "")
    ensures r.snippet == (if "snippet" in m then m["snippet"] else "")
  {
    SourceRef(Field(m, "title"), Field(m, "uri"), Field(m, "snippet"))
  }

  /** The sources, one reference each, in order. */
  function SourceRefs(ms: seq<Record>): (r: seq<SourceRef>)
    ensures |r| == |ms| && forall i :: 0 <= i < |ms| ==> r[i] == SourceRefOf(ms[i])
  {
    if ms == [] then [] else SourceRefs(ms[..|ms| - 1]) + [SourceRefOf(ms[|ms| - 1])]
  }

  /**
   * `_extract_sources`: the references of the "sources" list of the grounding
   * metadata; `grounding` is None when the metadata is missing, empty or has no
   * such list.
   */
  method ExtractSources(grounding: Option<seq<Record>>) returns (sources: seq<SourceRef>)
    ensures grounding.None? ==> sources == []
    ensures grounding.Some? ==> sources == SourceRefs(grounding.value)
  {
    sources := [];
    if grounding.Some? {
      var ms := grounding.value;
      for i := 0 to |ms|
        invariant sources == SourceRefs(ms[..i])
      {
        assert ms[..i + 1][..i] == ms[..i];
        sources := sources + [SourceRefOf(ms[i])];
      }
      assert ms[..|ms|] == ms;
    }
  }

  /** What `_extract_sources` returns, as a function. */
  function SourcesOf(grounding: Option<seq<Record>>): seq<SourceRef> {
    if grounding.None? then [] else SourceRefs(grounding.value)
  }

  // ----- _sync_deep_research -----

  /** One reply to `interactions.get`. */
  datatype Interaction = Interaction(status: string, outputs: seq<string>,
                                     grounding: Option<seq<Record>>, error: string)

  datatype ResearchResult = ResearchResult(interactionId: string, status: string, content: string,
                                           sources: seq<SourceRef>, error: Option<string>)

  /** A status that ends the polling. */
  predicate Terminal(status: string) {
    status == "completed" || status == "failed"
  }

  /** The text of the last output, or "" when there is none. */
  function LastOutput(outputs: seq<string>): string {
    if outputs == [] then "" else outputs[|outputs| - 1]
  }

  /** The result for a terminal reply. */
  function Finished(id: string, it: Interaction): (r: ResearchResult)
    requires Terminal(it.status)
    ensures r.status == it.status && r.interactionId == id
    ensures r.status == "completed" ==> r.content == LastOutput(it.outputs) && r.sources == SourcesOf(it.grounding)
    ensures r.status == "failed" ==> r.content == "" && r.sources == [] && r.error == Some(it.error)
  {
    if it.status == "completed" then ResearchResult(id, "completed", LastOutput(it.outputs), SourcesOf(it.grounding), None)
    else ResearchResult(id, "failed", "", [], Some(it.error))
  }

  function TimedOut(id: string, timeout: int): (r: ResearchResult)
    ensures r.status == "timeout" && r.content == "" && r.sources == [] && r.error.Some?
  {
    ResearchResult(id, "timeout", "", [], Some("Research timed out after " + IntToString(timeout) + " seconds"))
  }

  /** The number of status requests made from `elapsed` on when none is terminal. */
  function Polls(timeout: int, interval: int, elapsed: int): (p: nat)
    requires interval > 0
    decreases timeout - elapsed
  {
    if elapsed >= timeout then 0 else 1 + Polls(timeout, interval, elapsed + interval)
  }

  /** The polling from request `n`, at `elapsed` seconds. */
  function Poll(id: string, reply: nat -> Interaction, timeout: int, interval: int, n: nat, elapsed: int)
    : ResearchResult
    requires interval > 0
    decreases timeout - elapsed
  {
    if elapsed >= timeout then TimedOut(id, timeout)
    else if Terminal(reply(n).status) then Finished(id, reply(n))
    else Poll(id, reply, timeout, interval, n + 1, elapsed + interval)
  }

  /** `Polls` is the ceiling of the time left over the interval. */
  lemma {:induction false} PollsIsCeiling(timeout: int, interval: int, elapsed: int)
    requires interval > 0 && elapsed < timeout
    ensures var p := Polls(timeout, interval, elapsed);
      p >= 1 && elapsed + (p - 1) * interval < timeout <= elapsed + p * interval
    decreases timeout - elapsed
  {
    var p := Polls(timeout, interval, elapsed);
    if elapsed + interval < timeout {
      PollsIsCeiling(timeout, interval, elapsed + interval);
      var q := Polls(timeout, interval, elapsed + interval);
      assert p == q + 1;
      assert (p - 1) * interval == q * interval;
      assert p * interval == q * interval + interval;
    } else {
      assert p == 1;
    }
  }

  /**
   * The polling ends with the first terminal reply among the requests it has time
   * for, and times out exactly when none of them is terminal.
   */
  lemma PollFindsFirstTerminal(id: string, reply: nat -> Interaction, timeout: int,
                               interval: int, n: nat, elapsed: int)
    requires interval > 0
    ensures var r, p := Poll(id, reply, timeout, interval, n, elapsed), Polls(timeout, interval, elapsed);
      (r == TimedOut(id, timeout) <==> forall k :: n <= k < n + p ==> !Terminal(reply(k).status))
      && (r != TimedOut(id, timeout) ==>
            exists k :: n <= k < n + p && Terminal(reply(k).status) && r == Finished(id, reply(k))
                        && forall j :: n <= j < k ==> !Terminal(reply(j).status))
  {
    PollTimesOutIff(id, reply, timeout, interval, n, elapsed);
    PollFinishesFirst(id, reply, timeout, interval, n, elapsed);
  }

  /** The polling times out exactly when no request it has time for is answered terminally. */
  lemma {:induction false} PollTimesOutIff(id: string, reply: nat -> Interaction, timeout: int,
                                           interval: int, n: nat, elapsed: int)
    requires interval > 0
    ensures Poll(id, reply, timeout, interval, n, elapsed) == TimedOut(id, timeout)
      <==> forall k :: n <= k < n + Polls(timeout, interval, elapsed) ==> !Terminal(reply(k).status)
    decreases timeout - elapsed
  {
    if elapsed < timeout {
      if Terminal(reply(n).status) {
        assert Finished(id, reply(n)).status != "timeout";
      } else {
        PollTimesOutIff(id, reply, timeout, interval, n + 1, elapsed + interval);
      }
    }
  }

  /** A polling that does not time out ends with the first terminal reply. */
  lemma {:induction false} PollFinishesFirst(id: string, reply: nat -> Interaction, timeout: int,
                                             interval: int, n: nat, elapsed: int)
    requires interval > 0
    ensures var r := Poll(id, reply, timeout, interval, n, elapsed);
      r != TimedOut(id, timeout) ==>
        exists k :: n <= k < n + Polls(timeout, interval, elapsed) && Terminal(reply(k).status)
                    && r == Finished(id, reply(k)) && forall j :: n <= j < k ==> !Terminal(reply(j).status)
    decreases timeout - elapsed
  {
    if elapsed < timeout && !Terminal(reply(n).status) {
      PollFinishesFirst(id, reply, timeout, interval, n + 1, elapsed + interval);
      var r := Poll(id, reply, timeout, interval, n, elapsed);
      if r != TimedOut(id, timeout) {
        var k :| n + 1 <= k < n + 1 + Polls(timeout, interval, elapsed + interval) && Terminal(reply(k).status)
                 && r == Finished(id, reply(k)) && forall j :: n + 1 <= j < k ==> !Terminal(reply(j).status);
        assert forall j :: n <= j < k ==> !Terminal(reply(j).status);
      }
    }
  }

  /**
   * `_sync_deep_research` after the interaction `id` was created: poll every
   * `interval` seconds until a terminal status or `timeout` seconds; `polls`
   * counts the status requests. The sleep is not modelled.
   */
  method SyncDeepResearch(id: string, reply: nat -> Interaction, timeout: int, interval: int)
    returns (result: ResearchResult, polls: nat)
    requires interval > 0
    ensures result == Poll(id, reply, timeout, interval, 0, 0)
    ensures polls <= Polls(timeout, interval, 0)
    ensures result.status == "timeout" ==> polls == Polls(timeout, interval, 0)
    ensures polls > 0 ==> (polls - 1) * interval < timeout
  {
    var elapsed := 0;
    polls := 0;
    while elapsed < timeout
      invariant elapsed == polls * interval
      invariant polls + Polls(timeout, interval, elapsed) == Polls(timeout, interval, 0)
      invariant Poll(id, reply, timeout, interval, polls, elapsed) == Poll(id, reply, timeout, interval, 0, 0)
      invariant polls > 0 ==> elapsed < timeout + interval
      decreases timeout - elapsed
    {
      var interaction := reply(polls);
      polls := polls + 1;
      if interaction.status == "completed" {
        var sources := ExtractSources(interaction.grounding);
        var content := if interaction.outputs != [] then interaction.outputs[|interaction.outputs| - 1] else "";
        return ResearchResult(id, "completed", content, sources, None), polls;
      } else if interaction.status == "failed" {
        return ResearchResult(id, "failed", "", [], Some(interaction.error)), polls;
      }
      elapsed := elapsed + interval;
    }
    result := ResearchResult(id, "timeout", "", [], Some("Research timed out after " + IntToString(timeout) + " seconds"));
  }

  // ----- generate_image -----

  /** A response part: its text and its decoded inline data, None when absent. */
  datatype Part = Part(text: Option<string>, inlineData: Option<seq<bv8>>)

  const MinImageBytes := 1024

  /** A part with text counts as text, whatever data it carries. */
  predicate HasText(p: Part) { p.text.Some? && p.text.value != "" }

  /** A part kept as an image: no text, and inline data over 1 KiB. */
  predicate IsImage(p: Part) {
    !HasText(p) && p.inlineData.Some? && |p.inlineData.value| > MinImageBytes
  }

  /** The images of the parts, in order. */
  function ImagesOf(parts: seq<Part>): (r: seq<seq<bv8>>)
    ensures |r| <= |parts|
    ensures forall x :: x in r ==> |x| > MinImageBytes
    ensures forall x :: x in r <==> exists k :: 0 <= k < |parts| && IsImage(parts[k]) && parts[k].inlineData.value == x
  {
    if parts == [] then []
    else
      var init := parts[..|parts| - 1];
      var last := parts[|parts| - 1];
      assert forall k :: 0 <= k < |init| ==> init[k] == parts[k];
      if IsImage(last) then ImagesOf(init) + [last.inlineData.value] else ImagesOf(init)
  }

  /** The text of the last part that has text. */
  function LastText(parts: seq<Part>): (r: Option<string>)
    ensures r.Some? <==> exists k :: 0 <= k < |parts| && HasText(parts[k])
    ensures r.Some? ==> r.value != ""
  {
    if parts == [] then None
    else
      var last := parts[|parts| - 1];
      assert forall k :: 0 <= k < |parts| - 1 ==> parts[..|parts| - 1][k] == parts[k];
      if HasText(last) then last.text else LastText(parts[..|parts| - 1])
  }

  /** Images from two runs of parts come out one run after the other. */
  lemma {:induction false} ImagesOfAppend(a: seq<Part>, b: seq<Part>)
    ensures ImagesOf(a + b) == ImagesOf(a) + ImagesOf(b)
    decreases |b|
  {
    if b == [] {
      assert a + b == a;
    } else {
      assert (a + b)[..|a + b| - 1] == a + b[..|b| - 1];
      ImagesOfAppend(a, b[..|b| - 1]);
    }
  }

  /**
   * `generate_image` on the response's candidates: the images and the last text
   * of the first candidate's parts; nothing without a candidate.
   */
  method GenerateImage(candidates: seq<seq<Part>>) returns (images: seq<seq<bv8>>, textResponse: Option<string>)
    ensures candidates == [] ==> images == [] && textResponse.None?
    ensures candidates != [] ==> images == ImagesOf(candidates[0]) && textResponse == LastText(candidates[0])
  {
    images := [];
    textResponse := None;
    if candidates != [] {
      var parts := candidates[0];
      for i := 0 to |parts|
        invariant images == ImagesOf(parts[..i]) && textResponse == LastText(parts[..i])
      {
        assert parts[..i + 1][..i] == parts[..i];
        var part := parts[i];
        if part.text.Some? && part.text.value != "" {
          textResponse := part.text;
        } else if part.inlineData.Some? {
          var data := part.inlineData.value;
          if |data| > MinImageBytes {
            images := images + [data];
          }
        }
      }
      assert parts[..|parts|] == parts;
    }
  }
}
