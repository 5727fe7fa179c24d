/**
 * The mentor's card (src/components/MentorCard.tsx): the star icons drawn
 * for a rating and the label of the select button.
 */
module MentorCard {

  datatype Star = Full | Half | Empty

  /** The order the icons are drawn in: full, then half, then empty. */
  function Rank(s: Star): nat {
    match s
    case Full => 0
    case Half => 1
    case Empty => 2
  }

  /** The number of full stars: `Math.floor(rating)`, none when that is negative. */
  function FullStars(rating: real): nat {
    if rating.Floor < 0 then 0 else rating.Floor
  }

  /** `rating % 1 !== 0`: the rating has a fractional part. */
  predicate HasHalfStar(rating: real) {
    rating != rating.Floor as real
  }

  /**
   * `renderStars`: `Math.floor(rating)` full stars, one half star when the
   * rating has a fractional part, then empty stars up to five in all
   * (none when there are already five or more).
   */
  method RenderStars(rating: real) returns (stars: seq<Star>)
    ensures var marked := FullStars(rating) + (if HasHalfStar(rating) then 1 else 0);
      |stars| == if marked < 5 then 5 else marked
    ensures forall i :: 0 <= i < FullStars(rating) ==> stars[i] == Full
    ensures HasHalfStar(rating) ==> stars[FullStars(rating)] == Half
    ensures forall i :: 0 <= i < |stars| && stars[i] == Half ==> HasHalfStar(rating) && i == FullStars(rating)
    ensures forall i, j :: 0 <= i < j < |stars| ==> Rank(stars[i]) <= Rank(stars[j])
    ensures 0.0 <= rating <= 5.0 ==> |stars| == 5
    ensures forall k :: 0 <= k < |stars| ==>
      stars[k] == (if k < FullStars(rating) then Full
                   else if k < FullStars(rating) + (if HasHalfStar(rating) then 1 else 0) then Half
                   else Empty)
  {
    stars := [];
    var fullStars := rating.Floor;
    var hasHalfStar := rating != rating.Floor as real;
    var i := 0;
    while i < fullStars
      invariant 0 <= i <= FullStars(rating)
      invariant |stars| == i
      invariant forall k :: 0 <= k < i ==> stars[k] == Full
    {
      stars := stars + [Full];
      i := i + 1;
    }
    assert |stars| == FullStars(rating);
    if hasHalfStar {
      stars := stars + [Half];
    }
    var emptyStars := 5 - |stars|;
    var lead := |stars|;
    assert lead == FullStars(rating) + (if HasHalfStar(rating) then 1 else 0);
    i := 0;
    while i < emptyStars
      invariant 0 <= i <= (if emptyStars < 0 then 0 else emptyStars)
      invariant |stars| == lead + i
      invariant forall k :: 0 <= k < |stars| ==>
        stars[k] == (if k < FullStars(rating) then Full else if k < lead then Half else Empty)
    {
      stars := stars + [Empty];
      i := i + 1;
    }
  }

  /** The select button reads "Selected" on the selected card only. */
  function SelectButtonLabel(isSelected: bool): (text: string)
    ensures text == "Selected" <==> isSelected
  {
    if isSelected then "Selected" else "Select This Mentor"
  }
}
