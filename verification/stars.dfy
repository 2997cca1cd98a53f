/**
  The five-star widget used for every additional rating of the survey.
  Star number `star` (1..5) is lit ("on") exactly when `star <= rating`, and
  clicking a star hands that star's number to the parent as the new rating.
 */
module StarRating {

  /** Number of stars in one widget; they are numbered 1..StarCount. */
  const StarCount: nat := 5

  /** CSS class of star number `star` while the widget shows `rating`. */
  function StarClass(star: int, rating: int): string
  {
    if star <= rating then "on" else "off"
  }

  /** Classes of stars 1..k, left to right. */
  function Row(k: nat, rating: int): (cs: seq<string>)
    ensures |cs| == k
    ensures forall i :: 0 <= i < k ==> (cs[i] == "on" <==> i + 1 <= rating)
    ensures forall i :: 0 <= i < k ==> (cs[i] == "on" || cs[i] == "off")
  {
    if k == 0 then [] else Row(k - 1, rating) + [StarClass(k, rating)]
  }

  /** The classes of the whole widget: position `i` holds star number `i + 1`. */
  function Render(rating: int): (cs: seq<string>)
    ensures |cs| == StarCount
    ensures forall i :: 0 <= i < StarCount ==> (cs[i] == "on" <==> i + 1 <= rating)
  {
    Row(StarCount, rating)
  }

  /** Number of lit stars in a sequence of star classes. */
  function CountOn(cs: seq<string>): (n: nat)
    ensures n <= |cs|
  {
    if cs == [] then 0
    else CountOn(cs[..|cs| - 1]) + (if cs[|cs| - 1] == "on" then 1 else 0)
  }

  /** `rating` brought into the range 0..k. */
  function Clamp(rating: int, k: nat): (r: nat)
    ensures r <= k
    ensures 0 <= rating <= k ==> r == rating
  {
    if rating < 0 then 0 else if rating > k then k else rating
  }

  /** A row of k stars lights as many stars as the rating, cut to 0..k. */
  lemma {:induction false} RowLitCount(k: nat, rating: int)
    ensures CountOn(Row(k, rating)) == Clamp(rating, k)
  {
    if k > 0 {
      var cs := Row(k, rating);
      assert cs[..k - 1] == Row(k - 1, rating);
      RowLitCount(k - 1, rating);
    }
  }

  /** For every rating the widget can hold, exactly `rating` stars are lit. */
  lemma LitStars(rating: int)
    requires 0 <= rating <= StarCount
    ensures CountOn(Render(rating)) == rating
  {
    RowLitCount(StarCount, rating);
  }
}
