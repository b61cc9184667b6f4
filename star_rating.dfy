/**
 * `StarRating`: a rating becomes a row of full, half and empty star icons.
 * Ratings are exact reals, so `Math.floor` is `.Floor` and `rating % 1 !== 0`
 * is "the rating is not a whole number".
 */
module StarRating {

  const MaxStars := 5

  /** `fullStars`, `hasHalfStar` and `emptyStars`. */
  datatype Counts = Counts(full: int, half: bool, empty: int)

  /** One pushed icon; its index is the one in its React key (`full-${i}`, `half`, `empty-${i}`). */
  datatype Star = Full(index: nat) | Half | Empty(index: nat)

  /** The Ionicons glyph drawn for a star. */
  function IconName(s: Star): string {
    match s
    case Full(_) => "star"
    case Half => "star-half"
    case Empty(_) => "star-outline"
  }

  /**
   * `fullStars` is the floor of the rating, `hasHalfStar` says whether the rating
   * has a fractional part, and the three counts always add up to five.
   */
  function CountStars(rating: real): (c: Counts)
    ensures c.full as real <= rating < c.full as real + 1.0
    ensures c.half <==> rating != c.full as real
    ensures c.full + (if c.half then 1 else 0) + c.empty == MaxStars
  {
    var full := rating.Floor;
    var half := rating != full as real;
    Counts(full, half, MaxStars - full - (if half then 1 else 0))
  }

  /** How often `for (let i = 0; i < n; i++)` runs its body: never when `n` is negative. */
  function Times(n: int): (k: nat)
    ensures n >= 0 ==> k == n
    ensures n < 0 ==> k == 0
  {
    if n < 0 then 0 else n
  }

  function FullRun(n: nat): (r: seq<Star>)
    ensures |r| == n && forall k :: 0 <= k < n ==> r[k] == Full(k)
  {
    seq(n, k requires 0 <= k < n => Full(k))
  }

  function EmptyRun(n: nat): (r: seq<Star>)
    ensures |r| == n && forall k :: 0 <= k < n ==> r[k] == Empty(k)
  {
    seq(n, k requires 0 <= k < n => Empty(k))
  }

  /** The icons the three loops push: all full stars, at most one half star, then the empty stars. */
  function Icons(rating: real): (stars: seq<Star>)
  {
    var c := CountStars(rating);
    FullRun(Times(c.full)) + (if c.half then [Half] else []) + EmptyRun(Times(c.empty))
  }

  /** The body of `StarRating`: three loops pushing onto `stars`. */
  method RenderStars(rating: real) returns (stars: seq<Star>)
    ensures stars == Icons(rating)
  {
    var fullStars := rating.Floor;
    var hasHalfStar := rating != fullStars as real;
    var emptyStars := MaxStars - fullStars - (if hasHalfStar then 1 else 0);

    stars := [];
    var i := 0;
    while i < fullStars
      invariant 0 <= i <= Times(fullStars)
      invariant stars == FullRun(i)
    {
      stars := stars + [Full(i)];
      i := i + 1;
    }

    if hasHalfStar {
      stars := stars + [Half];
    }

    ghost var before := stars;
    assert before == FullRun(Times(fullStars)) + (if hasHalfStar then [Half] else []);
    var j := 0;
    while j < emptyStars
      invariant 0 <= j <= Times(emptyStars)
      invariant stars == before + EmptyRun(j)
    {
      stars := stars + [Empty(j)];
      j := j + 1;
    }
  }

  // ---------------------------------------------------------------------------
  // Properties of the star row
  // ---------------------------------------------------------------------------

  /** The number of icons: the empty loop runs zero times when `emptyStars` is negative (and the full loop when `fullStars` is). */
  lemma IconCount(rating: real)
    ensures var c := CountStars(rating);
      |Icons(rating)| == Times(c.full) + (if c.half then 1 else 0) + Times(c.empty)
  {
  }

  /** For a rating between 0 and 5 every count is non-negative and exactly five icons are drawn. */
  lemma FiveIconsInRange(rating: real)
    requires 0.0 <= rating <= 5.0
    ensures var c := CountStars(rating); c.full >= 0 && c.empty >= 0
    ensures |Icons(rating)| == MaxStars
  {
    var c := CountStars(rating);
    if c.full == MaxStars {
      assert rating == 5.0;
    }
  }

  /** A whole-number rating draws no half star. */
  lemma WholeRatingHasNoHalf(n: int)
    ensures CountStars(n as real) == Counts(n, false, MaxStars - n)
  {
  }

  /** The ranks of full, half and empty stars, in the order they are drawn. */
  function Rank(s: Star): nat {
    match s
    case Full(_) => 0
    case Half => 1
    case Empty(_) => 2
  }

  /** The row is full stars, then at most one half star, then empty stars, and no two icons share a key. */
  lemma {:induction false} IconsOrderedAndDistinct(rating: real)
    ensures var stars := Icons(rating);
      forall i, j :: 0 <= i < j < |stars| ==> Rank(stars[i]) <= Rank(stars[j]) && stars[i] != stars[j]
  {
    var c := CountStars(rating);
    var stars := Icons(rating);
    var f := Times(c.full);
    var h := if c.half then 1 else 0;
    forall i | 0 <= i < |stars|
      ensures i < f ==> stars[i] == Full(i)
      ensures f <= i < f + h ==> stars[i] == Half
      ensures f + h <= i ==> stars[i] == Empty(i - f - h)
    {
    }
  }

  /** The mock data's ratings and the four spelled-out cases. */
  lemma ExampleCounts()
    ensures CountStars(5.0) == Counts(5, false, 0)
    ensures CountStars(4.5) == Counts(4, true, 0)
    ensures CountStars(3.0) == Counts(3, false, 2)
    ensures CountStars(0.0) == Counts(0, false, 5)
  {
    assert (4.5).Floor == 4;
  }

  /** Out of range, the row is no longer five icons: 5.5 draws six and -1 draws six. */
  lemma OutOfRangeIconCounts()
    ensures |Icons(5.5)| == 6
    ensures |Icons(-1.0)| == 6
  {
    assert (5.5).Floor == 5;
    assert (-1.0).Floor == -1;
  }
}
