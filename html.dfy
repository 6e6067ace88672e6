/**
 * The callbacks Python's `html.parser.HTMLParser` makes while it reads a page, which
 * the two text extractors (marp_video_generator/main.py and video_generator/main.py)
 * react to. The tokenising itself is not modelled: a page is the list of its events.
 */
module Html {
  import opened Text

  datatype HtmlEvent = StartTag(name: string) | EndTag(name: string) | Data(text: string)

  /** The tags whose text both extractors drop. */
  const SkipTags: set<string> := {"script", "style", "nav", "header", "footer"}

  /** The text of a data callback as kept: stripped, and nothing when it is blank. */
  function Piece(data: string): (r: seq<string>)
    ensures |r| <= 1
    ensures r != [] <==> !AllSpace(data)
    ensures r != [] ==> r[0] == Strip(data) && r[0] != [] && !IsSpace(r[0][0]) && !IsSpace(r[0][|r[0]| - 1])
  {
    var t := Strip(data);
    if t != "" then [t] else []
  }

  /** The non-blank data of a page, stripped, in order, whatever the tags. */
  function AllPieces(events: seq<HtmlEvent>): seq<string> {
    if events == [] then []
    else (if events[0].Data? then Piece(events[0].text) else []) + AllPieces(events[1..])
  }

  /** Whether a page opens none of the skipped tags. */
  predicate NoSkipTag(events: seq<HtmlEvent>) {
    forall k :: 0 <= k < |events| && events[k].StartTag? ==> events[k].name !in SkipTags
  }
}
