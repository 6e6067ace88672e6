/**
 * The text handling of src/scripts/generate_content.py: the markdown list of the
 * research sources, and the post-processing of a generated article (emoji
 * removal, the appended sources section, the title and description captures and
 * the word count).
 */
module Content {
  import opened Wrappers
  import opened Text

  // ----- extract_sources_text -----

  /**
   * One research source: a dict whose keys may each be missing, a string, or a
   * value of any other type, which the renderer ignores.
   */
  datatype Source =
    | DictSource(title: Option<string>, url: Option<string>, uri: Option<string>)
    | TextSource(text: string)
    | OtherSource

  const NoSourcesText := "（調査結果から適切な参考文献を記載してください）"
  const NoUsableSourcesText := "（利用可能なソースがありません）"

  /** A url completed with "https://" unless it already starts with "http". */
  function FullUrl(url: string): (r: string)
    ensures StartsWith(r, "http")
    ensures |url| <= |r| && r[|r| - |url|..] == url
    ensures StartsWith(url, "http") <==> r == url
  {
    if StartsWith(url, "http") then url
    else
      assert ("https://" + url)[..4] == "http";
      "https://" + url
  }

  /** The markdown link `- [name](url)`. */
  function Link(name: string, url: string): string {
    "- [" + name + "](" + url + ")"
  }

  /**
   * The list line of one source, or None when the source is dropped: a dict
   * without a url (`url`, else `uri`) or a value that is neither dict nor string.
   */
  function SourceLine(s: Source): (r: Option<string>)
    ensures r.Some? ==> StartsWith(r.value, "- ")
    ensures r.None? <==> s.OtherSource? || (s.DictSource? && s.url.GetOr(s.uri.GetOr("")) == "")
  {
    match s
    case DictSource(title, url, uri) =>
      var u := url.GetOr(uri.GetOr(""));
      if u == "" then None
      else
        var full := FullUrl(u);
        var name := if title.GetOr("") == "" then full else title.value;
        assert Link(name, full)[..2] == "- ";
        Some(Link(name, full))
    case TextSource(t) =>
      if StartsWith(t, "http") then
        assert Link(t, t)[..2] == "- ";
        Some(Link(t, t))
      else
        assert ("- " + t)[..2] == "- ";
        Some("- " + t)
    case OtherSource => None
  }

  /** The lines of the sources that render, in input order. */
  function SourceLines(sources: seq<Source>): (lines: seq<string>)
    ensures |lines| <= |sources|
    ensures forall k :: 0 <= k < |lines| ==> StartsWith(lines[k], "- ")
  {
    if sources == [] then []
    else
      var init := SourceLines(sources[..|sources| - 1]);
      var line := SourceLine(sources[|sources| - 1]);
      if line.Some? then init + [line.value] else init
  }

  /** Rendering a list is rendering its two halves one after the other. */
  lemma {:induction false} SourceLinesAppend(a: seq<Source>, b: seq<Source>)
    ensures SourceLines(a + b) == SourceLines(a) + SourceLines(b)
    decreases |b|
  {
    if b == [] {
      assert a + b == a;
    } else {
      assert (a + b)[..|a + b| - 1] == a + b[..|b| - 1];
      SourceLinesAppend(a, b[..|b| - 1]);
    }
  }

  /** A list of strings loses none of them. */
  lemma {:induction false} TextSourcesAllRender(sources: seq<Source>)
    requires forall k :: 0 <= k < |sources| ==> sources[k].TextSource?
    ensures |SourceLines(sources)| == |sources|
    decreases |sources|
  {
    if sources != [] {
      TextSourcesAllRender(sources[..|sources| - 1]);
    }
  }

  /** What `extract_sources_text` returns for a sources list. */
  function SourcesText(sources: seq<Source>): (text: string)
    ensures sources == [] ==> text == NoSourcesText
    ensures sources != [] && SourceLines(sources) == [] ==> text == NoUsableSourcesText
    ensures SourceLines(sources) != [] ==> text == Join(SourceLines(sources), "\n")
  {
    if sources == [] then NoSourcesText
    else
      var lines := SourceLines(sources);
      if lines == [] then NoUsableSourcesText else Join(lines, "\n")
  }

  /** The loop of `extract_sources_text`: append each rendered line, then join. */
  method ExtractSourcesText(sources: seq<Source>) returns (text: string)
    ensures text == SourcesText(sources)
  {
    if sources == [] {
      return NoSourcesText;
    }
    var lines: seq<string> := [];
    for i := 0 to |sources|
      invariant lines == SourceLines(sources[..i])
    {
      assert sources[..i + 1][..i] == sources[..i];
      var line := SourceLine(sources[i]);
      if line.Some? {
        lines := lines + [line.value];
      }
    }
    assert sources[..|sources|] == sources;
    text := if lines == [] then NoUsableSourcesText else Join(lines, "\n");
  }

  /** A source whose strings hold no newline renders to a line without one. */
  predicate OneLine(s: Source) {
    match s
    case DictSource(title, url, uri) =>
      '\n' !in title.GetOr("") && '\n' !in url.GetOr("") && '\n' !in uri.GetOr("")
    case TextSource(t) => '\n' !in t
    case OtherSource => true
  }

  lemma {:induction false} SourceLinesOneLine(sources: seq<Source>)
    requires forall k :: 0 <= k < |sources| ==> OneLine(sources[k])
    ensures forall k :: 0 <= k < |SourceLines(sources)| ==> '\n' !in SourceLines(sources)[k]
    decreases |sources|
  {
    if sources != [] {
      var init := sources[..|sources| - 1];
      SourceLinesOneLine(init);
      SourceLineOneLine(sources[|sources| - 1]);
    }
  }

  /** A source without newlines renders to a line without one. */
  lemma SourceLineOneLine(s: Source)
    requires OneLine(s)
    ensures SourceLine(s).Some? ==> '\n' !in SourceLine(s).value
  {
    if s.DictSource? && s.url.GetOr(s.uri.GetOr("")) != "" {
      var u := s.url.GetOr(s.uri.GetOr(""));
      var full := FullUrl(u);
      assert '\n' !in full by {
        if !StartsWith(u, "http") {
          assert full == "https://" + u;
        }
      }
    }
  }

  /** The rendered list splits back, line by line, into the rendered sources. */
  lemma SourcesTextSplitsBack(sources: seq<Source>)
    requires SourceLines(sources) != []
    requires forall k :: 0 <= k < |sources| ==> OneLine(sources[k])
    ensures Split(SourcesText(sources), IsNewline) == SourceLines(sources)
  {
    SourceLinesOneLine(sources);
    LinesSplitBack(SourceLines(sources));
  }

  // ----- the emoji pattern -----

  /** The character class of the emoji pattern: the union of its six ranges. */
  predicate InEmojiClass(c: char) {
    ('\U{1F600}' <= c <= '\U{1F64F}') || ('\U{1F300}' <= c <= '\U{1F5FF}')
    || ('\U{1F680}' <= c <= '\U{1F6FF}') || ('\U{1F1E0}' <= c <= '\U{1F1FF}')
    || ('\U{2702}' <= c <= '\U{27B0}') || ('\U{24C2}' <= c <= '\U{1F251}')
  }

  /** `emoji_pattern.sub('', content)`: every character of the class removed. */
  function StripEmoji(s: string): (r: string)
    ensures |r| <= |s|
    ensures forall j :: 0 <= j < |r| ==> !InEmojiClass(r[j])
  {
    Keep(s, InEmojiClass)
  }

  /** Removing characters keeps exactly the others, wherever they stand. */
  lemma {:induction false} KeepKeepsOthers(s: string, drop: char -> bool, c: char)
    requires !drop(c)
    ensures c in Keep(s, drop) <==> c in s
    decreases |s|
  {
    if s != [] {
      KeepKeepsOthers(s[1..], drop, c);
      assert s == [s[0]] + s[1..];
    }
  }

  /** A character outside the class survives the stripping, and nothing else is added. */
  lemma StripEmojiKeepsOthers(s: string, c: char)
    requires !InEmojiClass(c)
    ensures c in StripEmoji(s) <==> c in s
  {
    KeepKeepsOthers(s, InEmojiClass, c);
  }

  /** Stripping twice is stripping once. */
  lemma StripEmojiIdempotent(s: string)
    ensures StripEmoji(StripEmoji(s)) == StripEmoji(s)
  {
    KeepNothingToDrop(StripEmoji(s), InEmojiClass);
  }

  /** Stripping works piece by piece. */
  lemma StripEmojiAppend(a: string, b: string)
    ensures StripEmoji(a + b) == StripEmoji(a) + StripEmoji(b)
  {
    KeepAppend(a, b, InEmojiClass);
  }

  /** The heading the article post-processing looks for. */
  const SourcesHeading := "参考文献・引用元"

  /**
   * CJK punctuation, kana, enclosed CJK letters and CJK compatibility signs,
   * CJK ideographs (with the compatibility ideographs) and the full-width forms.
   */
  predicate IsJapanese(c: char) {
    ('\U{3000}' <= c <= '\U{33FF}') || ('\U{3400}' <= c <= '\U{4DBF}')
    || ('\U{4E00}' <= c <= '\U{9FFF}') || ('\U{F900}' <= c <= '\U{FAFF}')
    || ('\U{FF00}' <= c <= '\U{FFEF}')
  }

  /** The sixth range of the class, U+24C2..U+1F251, holds all Japanese text. */
  lemma JapaneseInEmojiClass(c: char)
    requires IsJapanese(c)
    ensures InEmojiClass(c)
  {
  }

  lemma {:induction false} ContainsFirst(s: string, p: string)
    requires p != [] && Contains(s, p)
    ensures p[0] in s
    decreases |s|
  {
    if !StartsWith(s, p) {
      ContainsFirst(s[1..], p);
    }
  }

  /**
   * As written, no stripped text can hold the sources heading: its first
   * character is a CJK ideograph of the class, so the heading check never sees
   * an existing section.
   */
  lemma StrippedNeverHoldsHeading(s: string)
    ensures !Contains(StripEmoji(s), SourcesHeading)
  {
    if Contains(StripEmoji(s), SourcesHeading) {
      ContainsFirst(StripEmoji(s), SourcesHeading);
      assert false;
    }
  }

  /** The intended class: the pattern's characters except Japanese text. */
  predicate InIntendedEmojiClass(c: char) {
    InEmojiClass(c) && !IsJapanese(c)
  }

  /** Emoji removal that leaves Japanese text alone. */
  function StripEmojiIntended(s: string): (r: string)
    ensures |r| <= |s|
    ensures forall j :: 0 <= j < |r| ==> !InIntendedEmojiClass(r[j])
  {
    Keep(s, InIntendedEmojiClass)
  }

  lemma {:induction false} KeepKeepsContained(s: string, p: string, drop: char -> bool)
    requires Contains(s, p) && NoneMatch(p, drop)
    ensures Contains(Keep(s, drop), p)
    decreases |s|
  {
    if StartsWith(s, p) {
      assert s == p + s[|p|..];
      KeepAppend(p, s[|p|..], drop);
      KeepNothingToDrop(p, drop);
      PrefixContained(p, Keep(s[|p|..], drop));
    } else {
      KeepKeepsContained(s[1..], p, drop);
      ContainsPrepend(if drop(s[0]) then "" else [s[0]], Keep(s[1..], drop), p);
    }
  }

  lemma PrefixContained(p: string, rest: string)
    ensures Contains(p + rest, p)
  {
    assert (p + rest)[..|p|] == p;
  }

  /** With the intended class, Japanese text the article holds survives the stripping. */
  lemma StripEmojiIntendedKeepsJapanese(s: string, p: string)
    requires Contains(s, p)
    requires forall j :: 0 <= j < |p| ==> IsJapanese(p[j])
    ensures Contains(StripEmojiIntended(s), p)
  {
    KeepKeepsContained(s, p, InIntendedEmojiClass);
  }

  // ----- the title and description captures -----

  predicate IsQuote(c: char) { c == '"' || c == '\'' }

  /** `\s*\n` matches at `i`: spaces up to and including a newline. */
  predicate SpacesToNewline(s: string, i: nat)
    decreases |s| - i
  {
    i < |s| && (s[i] == '\n' || (IsSpace(s[i]) && SpacesToNewline(s, i + 1)))
  }

  /** A character that is neither a space nor a newline before `j` stops `\s*\n` at `i`. */
  lemma {:induction false} SpacesBlocked(s: string, i: nat, j: nat)
    requires i <= j < |s| && !IsSpace(s[j])
    requires forall m :: i <= m < j ==> s[m] != '\n'
    ensures !SpacesToNewline(s, i)
    decreases j - i
  {
    if i < j {
      SpacesBlocked(s, i + 1, j);
    }
  }

  /** `["']?\s*\n` matches at `i`. */
  predicate LineEnd(s: string, i: nat) {
    (i < |s| && IsQuote(s[i]) && SpacesToNewline(s, i + 1)) || SpacesToNewline(s, i)
  }

  /**
   * The lazy `(.+?)` from `c`, having tried fewer than `k` characters: the
   * shortest run of at least `k` non-newline characters after which the line end
   * matches.
   */
  function LazyCapture(s: string, c: nat, k: nat): (r: Option<string>)
    requires k >= 1 && c + k - 1 <= |s|
    requires forall j :: c <= j < c + k - 1 ==> s[j] != '\n'
    ensures r.Some? ==> |r.value| >= k && c + |r.value| <= |s| && r.value == s[c..c + |r.value|]
    ensures r.Some? ==> '\n' !in r.value && LineEnd(s, c + |r.value|)
    ensures r.Some? ==> forall n :: c + k <= n < c + |r.value| ==> !LineEnd(s, n)
    decreases |s| - c - k
  {
    if c + k > |s| || s[c + k - 1] == '\n' then None
    else if LineEnd(s, c + k) then Some(s[c..c + k])
    else LazyCapture(s, c, k + 1)
  }

  /** `["']?(.+?)` from `i`: with the quote taken when the capture can then match, else without. */
  function QuotedCapture(s: string, i: nat): (r: Option<string>)
    requires i <= |s|
    ensures r.Some? ==> r.value != "" && '\n' !in r.value
  {
    if i < |s| && IsQuote(s[i]) && LazyCapture(s, i + 1, 1).Some? then LazyCapture(s, i + 1, 1)
    else LazyCapture(s, i, 1)
  }

  /** The length of the run of spaces at `i`. */
  function SpaceRun(s: string, i: nat): (n: nat)
    requires i <= |s|
    ensures i + n <= |s|
    ensures forall j :: i <= j < i + n ==> IsSpace(s[j])
    ensures i + n == |s| || !IsSpace(s[i + n])
    decreases |s| - i
  {
    if i < |s| && IsSpace(s[i]) then 1 + SpaceRun(s, i + 1) else 0
  }

  /** The greedy `\s*` after the key: `w` spaces first, then fewer. */
  function AfterKey(s: string, base: nat, w: nat): (r: Option<string>)
    requires base + w <= |s|
    ensures r.Some? ==> r.value != "" && '\n' !in r.value
    decreases w
  {
    var r := QuotedCapture(s, base + w);
    if r.Some? || w == 0 then r else AfterKey(s, base, w - 1)
  }

  /** The pattern `key\s*["']?(.+?)["']?\s*\n` tried at position `p`. */
  function MatchAt(s: string, key: string, p: nat): (r: Option<string>)
    requires p <= |s|
    ensures r.Some? ==> StartsWith(s[p..], key) && r.value != "" && '\n' !in r.value
  {
    if p + |key| <= |s| && s[p..p + |key|] == key then
      assert s[p..][..|key|] == key;
      AfterKey(s, p + |key|, SpaceRun(s, p + |key|))
    else None
  }

  /** `re.search` from position `p`: the capture of the leftmost position that matches. */
  function SearchFrom(s: string, key: string, p: nat): (r: Option<string>)
    requires p <= |s|
    ensures r.Some? ==> Contains(s[p..], key) && r.value != "" && '\n' !in r.value
    decreases |s| - p
  {
    var m := MatchAt(s, key, p);
    if m.Some? || p == |s| then m
    else
      var r := SearchFrom(s, key, p + 1);
      assert s[p..][1..] == s[p + 1..];
      r
  }

  /** The value after the first occurrence of `key` on a line (optional quotes and spaces trimmed), if there is one. */
  function FieldValue(s: string, key: string): (r: Option<string>)
    ensures r.Some? ==> Contains(s, key) && r.value != "" && '\n' !in r.value
  {
    assert s[0..] == s;
    SearchFrom(s, key, 0)
  }

  /** A value whose ends are neither spaces nor quotes and that holds no newline. */
  predicate PlainValue(t: string) {
    t != "" && '\n' !in t && !IsSpace(t[0]) && !IsQuote(t[0]) && !IsSpace(t[|t| - 1]) && !IsQuote(t[|t| - 1])
  }

  /** The lazy capture stops at the end of a plain value followed by the line end. */
  lemma {:induction false} LazyCaptureReachesEnd(s: string, c: nat, t: string, k: nat)
    requires PlainValue(t) && 1 <= k <= |t| && c + |t| <= |s| && s[c..c + |t|] == t
    requires LineEnd(s, c + |t|)
    ensures LazyCapture(s, c, k) == Some(t)
    decreases |t| - k
  {
    assert forall j :: c <= j < c + k ==> s[j] == t[j - c];
    if k < |t| {
      var last := c + |t| - 1;
      assert s[last] == t[|t| - 1];
      assert forall m :: c <= m < last ==> s[m] != '\n';
      SpacesBlocked(s, c + k, last);
      if IsQuote(s[c + k]) {
        SpacesBlocked(s, c + k + 1, last);
      }
      LazyCaptureReachesEnd(s, c, t, k + 1);
    }
  }

  /**
   * A front matter line `key value`, with the value plain or quoted, at the start
   * of the text: the search gives the value back.
   */
  lemma FieldValueOfLine(key: string, q: string, t: string, rest: string)
    requires q == "" || q == "\"" || q == "'"
    requires PlainValue(t)
    ensures FieldValue(key + " " + q + t + q + "\n" + rest, key) == Some(t)
  {
    var s := key + " " + q + t + q + "\n" + rest;
    var c := |key| + 1 + |q|;
    assert s[..|key|] == key;
    assert s[|key|] == ' ';
    assert s[c..c + |t|] == t;
    assert s[|key| + 1] == if q == "" then t[0] else q[0];
    if q == "" {
      assert s[c + |t|] == '\n';
    } else {
      assert s[c + |t|] == q[0] && s[c + |t| + 1] == '\n';
    }
    FieldValueAt(s, key, c, t);
  }

  /** The facts about the text that make the search at position 0 capture `t`. */
  lemma FieldValueAt(s: string, key: string, c: nat, t: string)
    requires PlainValue(t) && StartsWith(s, key) && |key| + 2 < |s| && s[|key|] == ' '
    requires c == |key| + 1 || (c == |key| + 2 && IsQuote(s[|key| + 1]))
    requires c + |t| < |s| && s[c..c + |t|] == t
    requires c == |key| + 1 ==> s[c + |t|] == '\n'
    requires c == |key| + 2 ==> c + |t| + 1 < |s| && IsQuote(s[c + |t|]) && s[c + |t| + 1] == '\n'
    ensures FieldValue(s, key) == Some(t)
  {
    var b := |key|;
    assert s[0..0 + b] == key;
    assert s[b + 1] == if c == b + 1 then t[0] else s[b + 1];
    assert SpaceRun(s, b + 1) == 0;
    assert SpaceRun(s, b) == 1;
    if c == b + 2 {
      assert SpacesToNewline(s, c + |t| + 1);
    }
    assert LineEnd(s, c + |t|);
    LazyCaptureReachesEnd(s, c, t, 1);
    assert QuotedCapture(s, b + 1) == Some(t);
    assert AfterKey(s, b, 1) == Some(t);
    assert MatchAt(s, key, 0) == Some(t);
    assert s[0..] == s;
  }

  // ----- generate_article's post-processing -----

  /** The `date_range` entry of the research data; a missing key is None. */
  datatype DateRange = DateRange(start: Option<string>, end: Option<string>)

  /** The parts of the research data the article step reads. */
  datatype Research = Research(topicName: Option<string>, dateRange: DateRange, researchDate: Option<string>,
                               sources: Option<seq<Source>>)

  datatype Article = Article(topic: string, title: string, description: string, content: string, wordCount: nat,
                             categories: seq<string>, tags: seq<string>, sources: seq<Source>,
                             researchDate: string, dateRange: DateRange)

  const SectionLead := "\n\n---\n\n## "

  /** The section appended to an article that lacks one: its heading, then the sources text. */
  function SourcesSection(startDate: string, endDate: string, sourcesText: string, researchDate: string): string {
    SectionLead + SourcesHeading + SectionTail(startDate, endDate, sourcesText, researchDate)
  }

  function SectionTail(startDate: string, endDate: string, sourcesText: string, researchDate: string): string {
    "\n\n<div class=\"sources-section\">\n\n"
    + "この記事は以下の情報源を参考に作成されました（" + startDate + "〜" + endDate + "の調査に基づく）：\n\n"
    + sourcesText + "\n\n</div>\n\n---\n\n*この記事はAIによって生成されました。情報は" + researchDate
    + "時点のものです。*\n"
  }

  const TitleSuffix := "に関する最新情報"

  /**
   * The article built from the emoji-stripped reply `cleaned`: the sources section
   * appended when the heading is absent and there are sources, then the title and
   * description captured from the result, and its length as the word count.
   */
  function ArticleOf(topicId: string, research: Research, today: string, cleaned: string): (a: Article)
    ensures a.wordCount == |a.content|
    ensures a.title == (if FieldValue(a.content, "title:").Some? then FieldValue(a.content, "title:").value
                        else research.topicName.GetOr(topicId) + TitleSuffix)
    ensures a.description == FieldValue(a.content, "description:").GetOr("")
    ensures (a.title != "" && '\n' !in a.title) || a.title == research.topicName.GetOr(topicId) + TitleSuffix
    ensures research.sources.GetOr([]) == [] ==> a.content == cleaned
    ensures Contains(cleaned, SourcesHeading) ==> a.content == cleaned
    ensures !Contains(cleaned, SourcesHeading) && research.sources.GetOr([]) != [] ==>
      a.content == TrimEnd(cleaned) + SourcesSection(research.dateRange.start.GetOr(""),
        research.dateRange.end.GetOr(today), SourcesText(research.sources.GetOr([])), research.researchDate.GetOr(today))
    ensures research.sources.GetOr([]) != [] ==> Contains(a.content, SourcesHeading)
    ensures a.categories == [research.topicName.GetOr(topicId)] && a.tags == []
  {
    var sources := research.sources.GetOr([]);
    var researchDate := research.researchDate.GetOr(today);
    var startDate, endDate := research.dateRange.start.GetOr(""), research.dateRange.end.GetOr(today);
    var section := SourcesSection(startDate, endDate, SourcesText(sources), researchDate);
    var content := if !Contains(cleaned, SourcesHeading) && sources != [] then TrimEnd(cleaned) + section else cleaned;
    SectionHoldsHeading(cleaned, startDate, endDate, SourcesText(sources), researchDate);
    var name := research.topicName.GetOr(topicId);
    var title := FieldValue(content, "title:");
    Article(topicId, if title.Some? then title.value else name + TitleSuffix,
            FieldValue(content, "description:").GetOr(""), content, |content|,
            [name], [], sources, researchDate, research.dateRange)
  }

  /** Without sources, a reply that opens with a `title:` line is published under that title. */
  lemma ArticleTitleOfLine(topicId: string, research: Research, today: string, q: string, t: string, rest: string)
    requires research.sources.GetOr([]) == []
    requires q == "" || q == "\"" || q == "'"
    requires PlainValue(t)
    ensures ArticleOf(topicId, research, today, "title:" + " " + q + t + q + "\n" + rest).title == t
  {
    FieldValueOfLine("title:", q, t, rest);
  }

  lemma SectionHoldsHeading(cleaned: string, startDate: string, endDate: string, sourcesText: string,
                            researchDate: string)
    ensures Contains(TrimEnd(cleaned) + SourcesSection(startDate, endDate, sourcesText, researchDate), SourcesHeading)
  {
    var tail := SectionTail(startDate, endDate, sourcesText, researchDate);
    ContainsMiddle(TrimEnd(cleaned) + SectionLead, SourcesHeading, tail);
    assert TrimEnd(cleaned) + SectionLead + SourcesHeading + tail
        == TrimEnd(cleaned) + (SectionLead + SourcesHeading + tail);
  }

  /** `generate_article` as written, from the model's reply text. */
  function ArticleAsWritten(topicId: string, research: Research, today: string, reply: string): (a: Article)
    ensures a.wordCount == |a.content|
  {
    ArticleOf(topicId, research, today, StripEmoji(reply))
  }

  /**
   * As written, an article with sources always gets the section appended, even
   * when the reply already ends with one.
   */
  lemma AsWrittenAlwaysAppends(topicId: string, research: Research, today: string, reply: string)
    requires research.sources.GetOr([]) != []
    ensures ArticleAsWritten(topicId, research, today, reply).content
            == TrimEnd(StripEmoji(reply))
               + SourcesSection(research.dateRange.start.GetOr(""), research.dateRange.end.GetOr(today),
                                SourcesText(research.sources.GetOr([])), research.researchDate.GetOr(today))
  {
    StrippedNeverHoldsHeading(reply);
  }

  /** `generate_article` with the intended emoji class. */
  function GenerateArticle(topicId: string, research: Research, today: string, reply: string): (a: Article)
    ensures a.wordCount == |a.content|
    ensures Contains(StripEmojiIntended(reply), SourcesHeading) ==> a.content == StripEmojiIntended(reply)
    ensures !Contains(StripEmojiIntended(reply), SourcesHeading) && research.sources.GetOr([]) != [] ==>
      a.content == TrimEnd(StripEmojiIntended(reply)) + SourcesSection(research.dateRange.start.GetOr(""),
        research.dateRange.end.GetOr(today), SourcesText(research.sources.GetOr([])), research.researchDate.GetOr(today))
  {
    ArticleOf(topicId, research, today, StripEmojiIntended(reply))
  }

  /** With the intended class, a reply that already has the sources section is kept as stripped. */
  lemma ArticleKeepsExistingSection(topicId: string, research: Research, today: string, reply: string)
    requires Contains(reply, SourcesHeading)
    ensures GenerateArticle(topicId, research, today, reply).content == StripEmojiIntended(reply)
  {
    StripEmojiIntendedKeepsJapanese(reply, SourcesHeading);
  }
}
