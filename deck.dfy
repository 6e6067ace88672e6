/**
 * The slide-type rule shared by the V3 props builder (src/scripts/generate_video_v3.py)
 * and the Remotion normalisation (src/scripts/generate_slide_video.py): the first
 * slide is the title, the last of two or more is the ending, the rest are content.
 */
module Deck {

  /** The layout of slide `i` in a deck of `n`: the first is the title, the last the ending, the rest content. */
  function PositionType(i: nat, n: nat): (kind: string)
    ensures kind == "title" <==> i == 0
    ensures kind == "ending" <==> i != 0 && i + 1 == n
    ensures kind == "content" <==> i != 0 && i + 1 != n
  {
    if i == 0 then "title" else if i + 1 == n then "ending" else "content"
  }
}
