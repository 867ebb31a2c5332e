/** The star rating widget: five stars, each full, half or empty depending on where the
    rating value falls against the star's threshold. */
module RatingStars {

  datatype Star = Full | Half | Empty

  /** `renderStar(starValue)`: full once the value reaches the threshold, half within half a
      star below it, empty further below. */
  function RenderStar(value: real, starValue: int): (s: Star)
    ensures s == Full <==> value >= starValue as real
    ensures s == Half <==> starValue as real - 0.5 <= value < starValue as real
    ensures s == Empty <==> value < starValue as real - 0.5
  {
    if value >= starValue as real then Full
    else if value >= starValue as real - 0.5 then Half
    else Empty
  }

  /** The five stars rendered for a rating, for the thresholds 1 to 5 in that order. */
  function Rating(value: real): (stars: seq<Star>)
    ensures |stars| == 5
    ensures forall k :: 0 <= k < 5 ==> stars[k] == RenderStar(value, k + 1)
  {
    [RenderStar(value, 1), RenderStar(value, 2), RenderStar(value, 3), RenderStar(value, 4), RenderStar(value, 5)]
  }

  /** Five stars made of `full` full stars, then a half star when `half` holds, then empty
      stars. */
  function Stars(full: nat, half: bool): (stars: seq<Star>)
    requires full + (if half then 1 else 0) <= 5
    ensures |stars| == 5
  {
    seq(5, k requires 0 <= k < 5 => if k < full then Full else if k == full && half then Half else Empty)
  }

  /** How many full stars a value earns: its whole part, clamped to 0..5. */
  function FullCount(value: real): (n: nat)
    ensures n <= 5
  {
    if value < 0.0 then 0 else if value >= 5.0 then 5 else value.Floor
  }

  /** Whether a half star follows the full ones: there is room for it and the value is at
      least half a star past the last full one. */
  predicate HalfShown(value: real) {
    FullCount(value) < 5 && value >= FullCount(value) as real + 0.5
  }

  /** The row of stars is always full stars, then at most one half star, then empty stars,
      with the counts read off the value. */
  lemma RatingShape(value: real)
    ensures FullCount(value) + (if HalfShown(value) then 1 else 0) <= 5
    ensures Rating(value) == Stars(FullCount(value), HalfShown(value))
  {
    var n, h := FullCount(value), HalfShown(value);
    if HalfShown(value) {
      assert value < n as real + 1.0;
    }
    forall k | 0 <= k < 5
      ensures Rating(value)[k] == Stars(n, h)[k]
    {
      if k < n {
        assert value >= (k + 1) as real;
      } else if value >= 0.0 {
        assert value < n as real + 1.0;
      }
    }
  }

  /** Full stars form a prefix: a full star is preceded only by full stars. */
  lemma FullStarsPrefix(value: real, i: int, j: int)
    requires 0 <= i < j < 5 && Rating(value)[j] == Full
    ensures Rating(value)[i] == Full
  {
  }

  /** At most one half star appears, right after the full stars: everything before it is
      full and everything after it is empty. */
  lemma HalfStarPosition(value: real, h: int)
    requires 0 <= h < 5 && Rating(value)[h] == Half
    ensures forall k :: 0 <= k < h ==> Rating(value)[k] == Full
    ensures forall k :: h < k < 5 ==> Rating(value)[k] == Empty
  {
  }

  /** A whole-number rating n from 0 to 5 shows n full stars and 5 - n empty ones, no half. */
  lemma WholeRating(n: int)
    requires 0 <= n <= 5
    ensures Rating(n as real) == Stars(n, false)
  {
    RatingShape(n as real);
  }

  /** A rating of 3.5 shows three full stars, a half star and one empty star. */
  lemma ThreeAndAHalf()
    ensures Rating(3.5) == [Full, Full, Full, Half, Empty]
  {
  }
}
