/** The star rating of pages/FeedbackAndReviewsPage.js. */
module FeedbackStars {

  datatype Star = Filled | Empty

  const TotalStars: int := 5

  /** renderStars: five stars, the i-th (from 0) filled when i < rating. */
  method RenderStars(rating: int) returns (stars: seq<Star>)
    ensures |stars| == TotalStars
    ensures forall i :: 0 <= i < |stars| ==> (stars[i] == Filled <==> i < rating)
  {
    stars := [];
    var i := 0;
    while i < TotalStars
      invariant 0 <= i <= TotalStars
      invariant |stars| == i
      invariant forall k :: 0 <= k < i ==> (stars[k] == Filled <==> k < rating)
    {
      stars := stars + [if i < rating then Filled else Empty];
      i := i + 1;
    }
  }

  function FilledCount(stars: seq<Star>): nat
  {
    if stars == [] then 0
    else FilledCount(stars[..|stars| - 1]) + (if stars[|stars| - 1] == Filled then 1 else 0)
  }

  function Clamp(x: int, lo: int, hi: int): int
  {
    if x < lo then lo else if x > hi then hi else x
  }

  /** Stars filled exactly below `rating`: their number is the rating clamped
      to the number of stars, and no empty star comes before a filled one. */
  lemma {:induction false} FilledStarsCount(stars: seq<Star>, rating: int)
    requires forall i :: 0 <= i < |stars| ==> (stars[i] == Filled <==> i < rating)
    ensures FilledCount(stars) == Clamp(rating, 0, |stars|)
    ensures forall i, j :: 0 <= i < j < |stars| && stars[j] == Filled ==> stars[i] == Filled
  {
    if stars != [] {
      FilledStarsCount(stars[..|stars| - 1], rating);
    }
  }
}
