/**
 * GitHubPagesPublisher (src/scripts/publish.py): the post slug, the Jekyll front
 * matter, the title and description limits, the post file name and public URL,
 * the hero-image copy, and the result of a publish run. The file system is the
 * `Site` object; the clock readings, the existence of the hero image and the
 * outcome of the git push are inputs.
 */
module Publish {
  import opened Wrappers
  import opened Text

  // ----- slugify -----

  /** A character of the class `[-\s]`. */
  predicate IsDashOrSpace(c: char) { c == '-' || IsSpace(c) }

  predicate NoSpace(s: string) {
    forall j :: 0 <= j < |s| ==> !IsSpace(s[j])
  }

  predicate NoDoubleDash(s: string) {
    forall j, k :: 0 <= j && k == j + 1 < |s| ==> !(s[j] == '-' && s[k] == '-')
  }

  /** Every character is a hyphen or a word character (`\w`). */
  predicate SlugChars(s: string, isWord: char -> bool) {
    forall j :: 0 <= j < |s| ==> s[j] == '-' || isWord(s[j])
  }

  /** The characters `[^\w\s-]` matches. */
  function NotSlugChar(isWord: char -> bool): char -> bool {
    c => !(isWord(c) || IsDashOrSpace(c))
  }

  /** `re.sub(r'[^\w\s-]', '', s)`: only word characters, whitespace and hyphens stay. */
  function KeepSlugChars(s: string, isWord: char -> bool): (r: string)
    ensures forall j :: 0 <= j < |r| ==> isWord(r[j]) || IsDashOrSpace(r[j])
  {
    Keep(s, NotSlugChar(isWord))
  }

  /** The text after its leading run of hyphens and whitespace. */
  function DropRun(s: string): (r: string)
    ensures |r| <= |s| && r == s[|s| - |r|..]
    ensures r == [] || !IsDashOrSpace(r[0])
    ensures s != [] && IsDashOrSpace(s[0]) ==> |r| < |s|
  {
    if s != [] && IsDashOrSpace(s[0]) then DropRun(s[1..]) else s
  }

  /** `re.sub(r'[-\s]+', '-', s)`: every run of hyphens and whitespace becomes one hyphen. */
  function Collapse(s: string, isWord: char -> bool): (r: string)
    requires forall j :: 0 <= j < |s| ==> isWord(s[j]) || IsDashOrSpace(s[j])
    ensures |r| <= |s|
    ensures (r != [] && r[0] == '-') <==> (s != [] && IsDashOrSpace(s[0]))
    decreases |s|
  {
    if s == [] then []
    else if IsDashOrSpace(s[0]) then
      var rest := DropRun(s);
      assert forall j :: 0 <= j < |rest| ==> rest[j] == s[|s| - |rest| + j];
      "-" + Collapse(rest, isWord)
    else
      [s[0]] + Collapse(s[1..], isWord)
  }

  /** The collapsed text has no whitespace and no doubled hyphen, only word characters and hyphens. */
  lemma {:induction false} CollapseShape(s: string, isWord: char -> bool)
    requires forall j :: 0 <= j < |s| ==> isWord(s[j]) || IsDashOrSpace(s[j])
    ensures var r := Collapse(s, isWord); NoSpace(r) && NoDoubleDash(r) && SlugChars(r, isWord)
    decreases |s|
  {
    if s != [] {
      if IsDashOrSpace(s[0]) {
        var rest := DropRun(s);
        assert forall j :: 0 <= j < |rest| ==> rest[j] == s[|s| - |rest| + j];
        CollapseShape(rest, isWord);
        PrependShape('-', Collapse(rest, isWord), isWord);
      } else {
        CollapseShape(s[1..], isWord);
        PrependShape(s[0], Collapse(s[1..], isWord), isWord);
      }
    }
  }

  /** One more character in front of a slug-shaped text keeps it slug-shaped. */
  lemma PrependShape(ch: char, c: string, isWord: char -> bool)
    requires NoSpace(c) && NoDoubleDash(c) && SlugChars(c, isWord)
    requires !IsSpace(ch) && (ch == '-' || isWord(ch))
    requires ch == '-' ==> c == [] || c[0] != '-'
    ensures NoSpace([ch] + c) && NoDoubleDash([ch] + c) && SlugChars([ch] + c, isWord)
  {
    var r := [ch] + c;
    forall j | 0 <= j < |r|
      ensures !IsSpace(r[j]) && (r[j] == '-' || isWord(r[j]))
    {
      if j > 0 {
        assert r[j] == c[j - 1];
      }
    }
    forall j, k | 0 <= j && k == j + 1 < |r|
      ensures !(r[j] == '-' && r[k] == '-')
    {
      assert r[k] == c[k - 1];
      if j > 0 {
        assert r[j] == c[j - 1];
      }
    }
  }

  /** `s.lstrip('-')`. */
  function TrimDashStart(s: string): (r: string)
    ensures |r| <= |s| && r == s[|s| - |r|..]
    ensures r == [] || r[0] != '-'
  {
    if s != [] && s[0] == '-' then TrimDashStart(s[1..]) else s
  }

  /** `s.rstrip('-')`. */
  function TrimDashEnd(s: string): (r: string)
    ensures |r| <= |s| && r == s[..|r|]
    ensures r == [] || r[|r| - 1] != '-'
  {
    if s != [] && s[|s| - 1] == '-' then TrimDashEnd(s[..|s| - 1]) else s
  }

  /** A piece of a slug-shaped text is slug-shaped. */
  lemma SlicePreserves(s: string, a: nat, b: nat, isWord: char -> bool)
    requires a <= b <= |s|
    requires NoSpace(s) && NoDoubleDash(s) && SlugChars(s, isWord)
    ensures NoSpace(s[a..b]) && NoDoubleDash(s[a..b]) && SlugChars(s[a..b], isWord)
  {
    assert forall j :: 0 <= j < b - a ==> s[a..b][j] == s[a + j];
  }

  const MaxSlugLength := 50
  const EmptySlug := "untitled"

  /** `s.strip('-')` keeps a slug-shaped text slug-shaped, with no hyphen at either end. */
  function TrimDashes(s: string, isWord: char -> bool): (r: string)
    requires NoSpace(s) && NoDoubleDash(s) && SlugChars(s, isWord)
    ensures |r| <= |s| && NoSpace(r) && NoDoubleDash(r) && SlugChars(r, isWord)
    ensures r == [] || (r[0] != '-' && r[|r| - 1] != '-')
  {
    var front := TrimDashStart(s);
    SlicePreserves(s, |s| - |front|, |s|, isWord);
    var both := TrimDashEnd(front);
    SlicePreserves(front, 0, |both|, isWord);
    assert both != [] ==> both[0] == front[0];
    both
  }

  /**
   * `slugify`, applied to `folded`, the NFKC-normalised and lower-cased title;
   * `isWord` is Python's `\w`. The slug is never empty, at most 50 characters
   * long, has no whitespace, no doubled hyphen and no leading hyphen, and is made
   * of word characters and hyphens unless it is the fallback. The fallback is
   * taken exactly when the title holds no word character outside `[-\s]`.
   */
  function Slugify(folded: string, isWord: char -> bool): (r: string)
    ensures r != [] && |r| <= MaxSlugLength && r[0] != '-'
    ensures NoSpace(r) && NoDoubleDash(r)
    ensures r == EmptySlug || SlugChars(r, isWord)
    ensures !HasLetter(folded, isWord) ==> r == EmptySlug
    ensures HasLetter(folded, isWord) ==> r == Take(CleanSlug(folded, isWord), MaxSlugLength)
  {
    var cut := Take(CleanSlug(folded, isWord), MaxSlugLength);
    CutSlugShape(CleanSlug(folded, isWord), isWord);
    EmptySlugShape();
    CleanSlugEmptyIff(folded, isWord);
    if cut == [] then EmptySlug else cut
  }

  /** The text before the cut to 50: filtered, collapsed and stripped of hyphens. */
  function CleanSlug(folded: string, isWord: char -> bool): (r: string)
    ensures NoSpace(r) && NoDoubleDash(r) && SlugChars(r, isWord)
    ensures r == [] || r[0] != '-'
  {
    CollapseShape(KeepSlugChars(folded, isWord), isWord);
    TrimDashes(Collapse(KeepSlugChars(folded, isWord), isWord), isWord)
  }

  /** A word character (`\w`) that is neither a hyphen nor whitespace: a character the slug keeps. */
  predicate IsLetter(c: char, isWord: char -> bool) {
    isWord(c) && !IsDashOrSpace(c)
  }

  /** The text holds a letter. */
  predicate HasLetter(s: string, isWord: char -> bool)
    decreases |s|
  {
    s != [] && (IsLetter(s[0], isWord) || HasLetter(s[1..], isWord))
  }

  /** `HasLetter` holds exactly when some index holds a letter. */
  lemma {:induction false} HasLetterAt(s: string, isWord: char -> bool)
    ensures HasLetter(s, isWord) <==> exists j :: 0 <= j < |s| && IsLetter(s[j], isWord)
    decreases |s|
  {
    if s != [] {
      HasLetterAt(s[1..], isWord);
      if exists j :: 0 <= j < |s| && IsLetter(s[j], isWord) {
        var j :| 0 <= j < |s| && IsLetter(s[j], isWord);
        if j > 0 {
          assert s[1..][j - 1] == s[j];
        }
      }
      if exists j :: 0 <= j < |s[1..]| && IsLetter(s[1..][j], isWord) {
        var j :| 0 <= j < |s[1..]| && IsLetter(s[1..][j], isWord);
        assert s[j + 1] == s[1..][j];
      }
    }
  }

  /** A letter in front of a text, or one more character in front of a text with a letter. */
  lemma PrependHasLetter(ch: char, c: string, isWord: char -> bool)
    ensures HasLetter([ch] + c, isWord) <==> IsLetter(ch, isWord) || HasLetter(c, isWord)
  {
    assert ([ch] + c)[1..] == c;
  }

  /** The cleaned text is empty exactly when the title has no word character outside `[-\s]`. */
  lemma CleanSlugEmptyIff(folded: string, isWord: char -> bool)
    ensures CleanSlug(folded, isWord) == [] <==> !HasLetter(folded, isWord)
  {
    var kept := KeepSlugChars(folded, isWord);
    var collapsed := Collapse(kept, isWord);
    CollapseShape(kept, isWord);
    KeepHasLetter(folded, isWord);
    if HasLetter(folded, isWord) {
      CollapseHasLetter(kept, isWord);
      TrimDashStartKeeps(collapsed, isWord);
      var front := TrimDashStart(collapsed);
      TrimDashEndKeeps(front, 0);
    } else {
      HasLetterAt(kept, isWord);
      assert forall j :: 0 <= j < |kept| ==> IsDashOrSpace(kept[j]) by {
        forall j | 0 <= j < |kept| ensures IsDashOrSpace(kept[j]) {
          assert !IsLetter(kept[j], isWord);
        }
      }
      if kept != [] {
        DropRunAll(kept);
        assert collapsed == "-" + Collapse([], isWord);
      }
    }
  }

  /** The filter of `[^\w\s-]` never removes a letter and keeps no other letter. */
  lemma {:induction false} KeepHasLetter(s: string, isWord: char -> bool)
    ensures HasLetter(KeepSlugChars(s, isWord), isWord) <==> HasLetter(s, isWord)
    decreases |s|
  {
    if s != [] {
      var t := KeepSlugChars(s[1..], isWord);
      KeepHasLetter(s[1..], isWord);
      if NotSlugChar(isWord)(s[0]) {
        assert KeepSlugChars(s, isWord) == t;
      } else {
        assert KeepSlugChars(s, isWord) == [s[0]] + t;
        PrependHasLetter(s[0], t, isWord);
      }
    }
  }

  /** A text of hyphens and whitespace is one run. */
  lemma DropRunAll(s: string)
    requires forall j :: 0 <= j < |s| ==> IsDashOrSpace(s[j])
    ensures DropRun(s) == []
  {
  }

  /** The leading run holds no letter. */
  lemma {:induction false} DropRunHasLetter(s: string, isWord: char -> bool)
    ensures HasLetter(DropRun(s), isWord) <==> HasLetter(s, isWord)
    decreases |s|
  {
    if s != [] && IsDashOrSpace(s[0]) {
      DropRunHasLetter(s[1..], isWord);
    }
  }

  /** The collapse of hyphen and whitespace runs keeps exactly the letters. */
  lemma {:induction false} CollapseHasLetter(s: string, isWord: char -> bool)
    requires forall j :: 0 <= j < |s| ==> isWord(s[j]) || IsDashOrSpace(s[j])
    ensures HasLetter(Collapse(s, isWord), isWord) <==> HasLetter(s, isWord)
    decreases |s|
  {
    if s != [] {
      if IsDashOrSpace(s[0]) {
        var rest := DropRun(s);
        assert forall j :: 0 <= j < |rest| ==> rest[j] == s[|s| - |rest| + j];
        CollapseHasLetter(rest, isWord);
        DropRunHasLetter(s, isWord);
        assert Collapse(s, isWord) == "-" + Collapse(rest, isWord);
        PrependHasLetter('-', Collapse(rest, isWord), isWord);
      } else {
        CollapseHasLetter(s[1..], isWord);
        assert Collapse(s, isWord) == [s[0]] + Collapse(s[1..], isWord);
        PrependHasLetter(s[0], Collapse(s[1..], isWord), isWord);
      }
    }
  }

  /** `lstrip('-')` leaves a text with a letter non-empty. */
  lemma {:induction false} TrimDashStartKeeps(s: string, isWord: char -> bool)
    requires HasLetter(s, isWord)
    ensures TrimDashStart(s) != []
    decreases |s|
  {
    if s[0] == '-' {
      TrimDashStartKeeps(s[1..], isWord);
    }
  }

  /** `rstrip('-')` keeps every character up to the last one that is not a hyphen. */
  lemma {:induction false} TrimDashEndKeeps(s: string, j: nat)
    requires j < |s| && s[j] != '-'
    ensures TrimDashEnd(s) != []
    decreases |s|
  {
    if s[|s| - 1] == '-' {
      TrimDashEndKeeps(s[..|s| - 1], j);
    }
  }

  lemma CutSlugShape(s: string, isWord: char -> bool)
    requires NoSpace(s) && NoDoubleDash(s) && SlugChars(s, isWord) && (s == [] || s[0] != '-')
    ensures var cut := Take(s, MaxSlugLength);
      NoSpace(cut) && NoDoubleDash(cut) && SlugChars(cut, isWord) && (cut == [] || cut[0] != '-')
  {
    SlicePreserves(s, 0, |Take(s, MaxSlugLength)|, isWord);
  }

  lemma EmptySlugShape()
    ensures NoSpace(EmptySlug) && NoDoubleDash(EmptySlug) && EmptySlug[0] != '-'
  {
  }

  /** A slug as `slugify` leaves it: word characters and single inner hyphens, at most 50. */
  predicate IsSlug(s: string, isWord: char -> bool) {
    s != [] && |s| <= MaxSlugLength && s[0] != '-' && s[|s| - 1] != '-'
    && NoSpace(s) && NoDoubleDash(s) && SlugChars(s, isWord)
  }

  /** After one hyphen that no other hyphen or space follows, the run is that hyphen. */
  lemma DropRunStops(s: string)
    requires s != [] && s[0] == '-' && (|s| == 1 || !IsDashOrSpace(s[1]))
    ensures DropRun(s) == s[1..]
  {
    assert DropRun(s) == DropRun(s[1..]);
  }

  lemma {:induction false} CollapseFixes(s: string, isWord: char -> bool)
    requires NoSpace(s) && NoDoubleDash(s) && SlugChars(s, isWord)
    ensures Collapse(s, isWord) == s
    decreases |s|
  {
    if s != [] {
      var t := s[1..];
      SlicePreserves(s, 1, |s|, isWord);
      CollapseFixes(t, isWord);
      if s[0] == '-' {
        if |s| > 1 {
          assert !(s[0] == '-' && s[1] == '-') && !IsSpace(s[1]);
        }
        DropRunStops(s);
        assert Collapse(s, isWord) == "-" + Collapse(t, isWord);
      } else {
        assert !IsSpace(s[0]);
        assert Collapse(s, isWord) == [s[0]] + Collapse(t, isWord);
      }
      assert s == [s[0]] + t;
    }
  }

  /** A slug is its own slug. */
  lemma SlugifyFixesSlugs(s: string, isWord: char -> bool)
    requires IsSlug(s, isWord)
    ensures Slugify(s, isWord) == s
  {
    KeepNothingToDrop(s, NotSlugChar(isWord));
    CollapseFixes(s, isWord);
    assert TrimDashes(s, isWord) == s;
  }

  // ----- the front matter -----

  const DefaultAuthor := "AI Blog Generator"

  function Quoted(key: string, value: string): string {
    key + ": \"" + value + "\""
  }

  function ListLine(key: string, items: seq<string>): string {
    key + ": [" + Join(items, ", ") + "]"
  }

  /** `tags` or `featured_image` given and not empty. */
  predicate HasTags(tags: Option<seq<string>>) { tags.Some? && tags.value != [] }
  predicate HasImage(image: Option<string>) { image.Some? && image.value != "" }

  /**
   * The lines of `generate_front_matter`: the fixed head, a tags line only for
   * tags, the author, a featured image line only for an image, the closing
   * "---" and an empty line.
   */
  function FrontMatterLines(title: string, description: string, date: string, categories: seq<string>,
                            tags: Option<seq<string>>, image: Option<string>, author: string): (ls: seq<string>)
    ensures |ls| == 9 + (if HasTags(tags) then 1 else 0) + (if HasImage(image) then 1 else 0)
    ensures ls[..6] == ["---", "layout: post", Quoted("title", title), Quoted("description", description),
                        "date: " + date, ListLine("categories", categories)]
    ensures StartsWith(ls[6], "tags: ") <==> HasTags(tags)
    ensures StartsWith(ls[|ls| - 3], "featured_image: ") <==> HasImage(image)
    ensures ls[|ls| - 2..] == ["---", ""]
  {
    var head := ["---", "layout: post", Quoted("title", title), Quoted("description", description),
                 "date: " + date, ListLine("categories", categories)];
    var tagLine := if HasTags(tags) then [ListLine("tags", tags.value)] else [];
    var imageLine := if HasImage(image) then [Quoted("featured_image", image.value)] else [];
    var ls := head + tagLine + [Quoted("author", author)] + imageLine + ["---", ""];
    assert ls[..6] == head;
    assert HasTags(tags) ==> ls[6] == ListLine("tags", tags.value) && ls[6][..6] == "tags: ";
    assert !HasTags(tags) ==> ls[6] == Quoted("author", author) && ls[6][0] == 'a';
    assert HasImage(image) ==> ls[|ls| - 3] == Quoted("featured_image", image.value)
                               && ls[|ls| - 3][..16] == "featured_image: ";
    assert !HasImage(image) ==> ls[|ls| - 3] == Quoted("author", author) && ls[|ls| - 3][0] == 'a';
    ls
  }

  /** `generate_front_matter`: the list of lines built by appends, joined by "\n". */
  method GenerateFrontMatter(title: string, description: string, date: string, categories: seq<string>,
                             tags: Option<seq<string>>, image: Option<string>, author: string) returns (text: string)
    ensures text == Join(FrontMatterLines(title, description, date, categories, tags, image, author), "\n")
  {
    var lines := ["---", "layout: post", Quoted("title", title), Quoted("description", description),
                  "date: " + date, ListLine("categories", categories)];
    ghost var head := lines;
    if tags.Some? && tags.value != [] {
      lines := lines + [ListLine("tags", tags.value)];
    }
    lines := lines + [Quoted("author", author)];
    ghost var withAuthor := lines;
    if image.Some? && image.value != "" {
      lines := lines + [Quoted("featured_image", image.value)];
    }
    lines := lines + ["---"];
    lines := lines + [""];
    assert lines == withAuthor + (if HasImage(image) then [Quoted("featured_image", image.value)] else []) + ["---", ""];
    assert withAuthor == head + (if HasTags(tags) then [ListLine("tags", tags.value)] else []) + [Quoted("author", author)];
    text := Join(lines, "\n");
  }

  /** Lines that open with "---" and "layout: post" join into a text that starts with them. */
  lemma JoinOpens(ls: seq<string>)
    requires |ls| >= 3 && ls[0] == "---" && ls[1] == "layout: post"
    ensures StartsWith(Join(ls, "\n"), "---\nlayout: post\n")
  {
    assert ls[1..][1..] == ls[2..];
    var text, rest := Join(ls, "\n"), Join(ls[2..], "\n");
    assert Join(ls[1..], "\n") == "layout: post" + "\n" + rest;
    assert text == "---" + "\n" + ("layout: post" + "\n" + rest);
    assert text == "---\nlayout: post\n" + rest;
    assert text[..17] == "---\nlayout: post\n";
  }

  /** Lines that close with "---" and an empty line join into a text ending "---\n". */
  lemma JoinCloses(ls: seq<string>)
    requires |ls| >= 3 && ls[|ls| - 2..] == ["---", ""]
    ensures var text := Join(ls, "\n"); |text| >= 4 && text[|text| - 4..] == "---\n"
  {
    var body := ls[..|ls| - 2];
    assert ls == body + ["---", ""];
    JoinWithClose(body);
    var head := Join(body, "\n");
    assert (head + "\n---\n")[|head| + 1..] == "---\n";
  }

  /** Joining a closing "---" and an empty line appends "\n---\n". */
  lemma JoinWithClose(body: seq<string>)
    requires body != []
    ensures Join(body + ["---", ""], "\n") == Join(body, "\n") + "\n---\n"
  {
    JoinSnoc(body, "---", "\n");
    assert body + ["---", ""] == (body + ["---"]) + [""];
    JoinSnoc(body + ["---"], "", "\n");
  }

  /** The front matter opens with "---" and the layout, and closes with "---" and a newline. */
  lemma FrontMatterFrame(title: string, description: string, date: string, categories: seq<string>,
                         tags: Option<seq<string>>, image: Option<string>, author: string)
    ensures var text := Join(FrontMatterLines(title, description, date, categories, tags, image, author), "\n");
      StartsWith(text, "---\nlayout: post\n") && |text| >= 4 && text[|text| - 4..] == "---\n"
  {
    var ls := FrontMatterLines(title, description, date, categories, tags, image, author);
    assert ls[0] == ls[..6][0] && ls[1] == ls[..6][1];
    JoinOpens(ls);
    JoinCloses(ls);
  }

  /** Without newlines in the fields, the front matter splits back into its lines. */
  lemma FrontMatterSplitsBack(title: string, description: string, date: string, categories: seq<string>,
                              tags: Option<seq<string>>, image: Option<string>, author: string)
    requires '\n' !in title && '\n' !in description && '\n' !in date && '\n' !in author
    requires forall k :: 0 <= k < |categories| ==> '\n' !in categories[k]
    requires tags.Some? ==> forall k :: 0 <= k < |tags.value| ==> '\n' !in tags.value[k]
    requires image.Some? ==> '\n' !in image.value
    ensures var ls := FrontMatterLines(title, description, date, categories, tags, image, author);
      Split(Join(ls, "\n"), IsNewline) == ls
  {
    var ls := FrontMatterLines(title, description, date, categories, tags, image, author);
    JoinNoNewline(categories, ", ");
    if tags.Some? {
      JoinNoNewline(tags.value, ", ");
    }
    assert forall k :: 0 <= k < |ls| ==> '\n' !in ls[k];
    LinesSplitBack(ls);
  }

  lemma {:induction false} JoinNoNewline(ps: seq<string>, sep: string)
    requires '\n' !in sep && forall k :: 0 <= k < |ps| ==> '\n' !in ps[k]
    ensures '\n' !in Join(ps, sep)
    decreases |ps|
  {
    if |ps| > 1 {
      JoinNoNewline(ps[1..], sep);
    }
  }

  // ----- titles, file names and URLs -----

  /** A title over 60 characters becomes its first 57 and "...". */
  function ShortTitle(title: string): (r: string)
    ensures |r| <= 60
    ensures |title| <= 60 ==> r == title
    ensures |title| > 60 ==> |r| == 60 && r[..57] == title[..57] && r[57..] == "..."
  {
    if |title| > 60 then title[..57] + "..." else title
  }

  /** Shortening a shortened title changes nothing. */
  lemma ShortTitleIdempotent(title: string)
    ensures ShortTitle(ShortTitle(title)) == ShortTitle(title)
  {
  }

  const MaxDescription := 120

  /** A clock reading, as far as the file name and URL use it. */
  datatype Date = Date(year: nat, month: nat, day: nat)

  /** `strftime` of the date with `sep` between the four-digit year, the month and the day. */
  function DateStamp(d: Date, sep: string): string {
    ZeroPad(d.year, 4) + sep + Pad2(d.month) + sep + Pad2(d.day)
  }

  function PostFileName(d: Date, slug: string): string {
    DateStamp(d, "-") + "-" + slug + ".md"
  }

  const BaseUrl := "https://takubon0202.github.io/if-blog-auto"

  function PublicUrl(d: Date, slug: string): string {
    BaseUrl + "/" + DateStamp(d, "/") + "/" + slug + "/"
  }

  /** The hyphens of a text turned into slashes. */
  function DashesToSlashes(s: string): (r: string)
    ensures |r| == |s|
    ensures forall j :: 0 <= j < |s| ==> r[j] == if s[j] == '-' then '/' else s[j]
  {
    seq(|s|, j requires 0 <= j < |s| => if s[j] == '-' then '/' else s[j])
  }

  lemma NatToStringBelow(n: nat, k: nat, bound: nat)
    requires bound == Pow10(k) && n < bound
    ensures |NatToString(n)| <= Max(k, 1)
    decreases k
  {
    if n >= 10 {
      NatToStringBelow(n / 10, k - 1, Pow10(k - 1));
    }
  }

  function Pow10(k: nat): nat {
    if k == 0 then 1 else 10 * Pow10(k - 1)
  }

  /**
   * The public URL is the one Jekyll derives from the post file name: the date
   * of the name with slashes, then the slug, when both use the same date.
   */
  lemma UrlFollowsFileName(d: Date, slug: string)
    requires d.year < 10000 && d.month < 100 && d.day < 100
    ensures var f := PostFileName(d, slug);
      |f| == 14 + |slug| && PublicUrl(d, slug) == BaseUrl + "/" + DashesToSlashes(f[..10]) + "/" + f[11..|f| - 3] + "/"
  {
    NatToStringBelow(d.year, 4, 10000);
    NatToStringBelow(d.month, 2, 100);
    NatToStringBelow(d.day, 2, 100);
    var y, m, dd := ZeroPad(d.year, 4), Pad2(d.month), Pad2(d.day);
    var f := PostFileName(d, slug);
    assert f == y + "-" + m + "-" + dd + "-" + slug + ".md";
    assert f[..10] == y + "-" + m + "-" + dd;
    assert f[11..|f| - 3] == slug;
    assert DashesToSlashes(y + "-" + m + "-" + dd) == y + "/" + m + "/" + dd;
  }

  // ----- the site and a publish run -----

  /** The published site: image files under docs/assets/images and post files under docs/_posts. */
  class Site {
    var images: set<string>
    var posts: map<string, string>

    constructor()
      ensures images == {} && posts == map[]
    {
      images := {};
      posts := map[];
    }
  }

  /** An entry of `article["images"]["hero"]["images"]`; a missing `file_path` is None. */
  datatype HeroImage = HeroImage(filePath: Option<string>)

  const ImagesUrlPrefix := "/if-blog-auto/assets/images/"

  /** The name the hero image is copied under. */
  function CopiedName(slug: string, path: string): string {
    slug + "_" + BaseName(path)
  }

  /** The featured image `copy_images` reports: the URL of the first hero image when its file exists. */
  function HeroUrl(hero: seq<HeroImage>, slug: string, existing: set<string>): Option<string> {
    if hero != [] && hero[0].filePath.GetOr("") in existing
    then Some(ImagesUrlPrefix + CopiedName(slug, hero[0].filePath.GetOr("")))
    else None
  }

  /** The site's images after `copy_images`: the copied hero image added, if there is one. */
  function ImagesAfterCopy(images: set<string>, hero: seq<HeroImage>, slug: string, existing: set<string>): set<string> {
    if hero != [] && hero[0].filePath.GetOr("") in existing
    then images + {CopiedName(slug, hero[0].filePath.GetOr(""))}
    else images
  }

  /**
   * `copy_images`: nothing without a hero image or when its file does not exist
   * (`existing` holds the paths that do); otherwise the first image is copied into
   * the site and its site-relative URL returned.
   */
  method CopyImages(site: Site, hero: seq<HeroImage>, slug: string, existing: set<string>) returns (url: Option<string>)
    modifies site
    ensures url.None? <==> hero == [] || hero[0].filePath.GetOr("") !in existing
    ensures url.None? ==> site.images == old(site.images)
    ensures url.Some? ==> var name := CopiedName(slug, hero[0].filePath.GetOr(""));
      url.value == ImagesUrlPrefix + name && site.images == old(site.images) + {name}
    ensures url == HeroUrl(hero, slug, existing)
    ensures site.images == ImagesAfterCopy(old(site.images), hero, slug, existing)
    ensures site.posts == old(site.posts)
  {
    url := None;
    if hero != [] {
      var path := hero[0].filePath.GetOr("");
      if path in existing {
        var name := CopiedName(slug, path);
        site.images := site.images + {name};
        url := Some(ImagesUrlPrefix + name);
      }
    }
  }

  const PostsDir := "docs/_posts/"

  /** `create_post_file`: the front matter and the content, written under the dated slug name. */
  method CreatePostFile(site: Site, fileDate: Date, stamp: string, slug: string, title: string, content: string,
                        description: string, categories: seq<string>, tags: Option<seq<string>>,
                        image: Option<string>) returns (path: string)
    modifies site
    ensures path == PostsDir + PostFileName(fileDate, slug)
    ensures site.posts == old(site.posts)[PostFileName(fileDate, slug) :=
      Join(FrontMatterLines(title, description, stamp, categories, tags, image, DefaultAuthor), "\n") + content]
    ensures site.images == old(site.images)
  {
    var name := PostFileName(fileDate, slug);
    var front := GenerateFrontMatter(title, description, stamp, categories, tags, image, DefaultAuthor);
    site.posts := site.posts[name := front + content];
    path := PostsDir + name;
  }

  /** The fields of the article `publish_to_github_pages` reads; a missing key is None. */
  datatype PostArticle = PostArticle(title: Option<string>, content: Option<string>, description: Option<string>,
                                     categories: Option<seq<string>>, tags: Option<seq<string>>, hero: seq<HeroImage>)

  datatype PublishResult = PublishResult(status: string, message: string, postPath: string, publicUrl: Option<string>)

  /** The description a run publishes: the article's, or "", cut to its first 120 characters. */
  function RunDescription(article: PostArticle): (d: string)
    ensures |d| <= MaxDescription
    ensures var full := article.description.GetOr("");
      |d| == Min(|full|, MaxDescription) && d == full[..|d|]
  {
    Take(article.description.GetOr(""), MaxDescription)
  }

  /** The post file a run writes: front matter from the run's fields and defaults, then the content. */
  function RunPost(article: PostArticle, slug: string, stamp: string, existing: set<string>): string {
    Join(FrontMatterLines(RunTitle(article), RunDescription(article), stamp, article.categories.GetOr(["未分類"]),
                          Some(article.tags.GetOr([])), HeroUrl(article.hero, slug, existing), DefaultAuthor), "\n")
    + article.content.GetOr("")
  }

  /** The title a run publishes under: the article's, or "Untitled", shortened. */
  function RunTitle(article: PostArticle): string {
    ShortTitle(article.title.GetOr("Untitled"))
  }

  /**
   * `publish_to_github_pages`. `folded` is the NFKC-normalised, lower-cased run
   * title; `fileDate`, `stamp` and `urlDate` are the clock readings of the file
   * name, the front matter and the URL; `pushed` is whether the git commands
   * succeeded. One post file is written; the run succeeds exactly when the push
   * does, and only then has a public URL.
   */
  method PublishToGitHubPages(site: Site, article: PostArticle, folded: string, isWord: char -> bool,
                              existing: set<string>, fileDate: Date, stamp: string, urlDate: Date, pushed: bool)
    returns (result: PublishResult)
    modifies site
    ensures var slug := Slugify(folded, isWord);
      result.postPath == PostsDir + PostFileName(fileDate, slug)
      && PostFileName(fileDate, slug) in site.posts
      && site.posts.Keys == old(site.posts.Keys) + {PostFileName(fileDate, slug)}
      && (forall name :: name in old(site.posts) && name != PostFileName(fileDate, slug)
                         ==> site.posts[name] == old(site.posts)[name])
    ensures var slug := Slugify(folded, isWord);
      site.posts[PostFileName(fileDate, slug)] == RunPost(article, slug, stamp, existing)
      && site.images == ImagesAfterCopy(old(site.images), article.hero, slug, existing)
    ensures result.status == "success" <==> pushed
    ensures pushed ==> result.publicUrl == Some(PublicUrl(urlDate, Slugify(folded, isWord)))
                       && result.message == "Successfully published: " + RunTitle(article)
    ensures !pushed ==> result.publicUrl.None? && result.message == "Git push failed"
  {
    var title := RunTitle(article);
    var content := article.content.GetOr("");
    var description := Take(article.description.GetOr(""), MaxDescription);
    assert description == RunDescription(article);
    var categories := article.categories.GetOr(["未分類"]);
    var tags := article.tags.GetOr([]);
    var slug := Slugify(folded, isWord);
    var image := CopyImages(site, article.hero, slug, existing);
    var path := CreatePostFile(site, fileDate, stamp, slug, title, content, description, categories, Some(tags), image);
    if !pushed {
      return PublishResult("error", "Git push failed", path, None);
    }
    result := PublishResult("success", "Successfully published: " + title, path, Some(PublicUrl(urlDate, slug)));
  }
}
