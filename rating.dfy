/** The three ways the pages turn an item's ratings into one number, and the
    half-up rounding the rating filter and the badges use. */
module Rating {
  import opened Wrappers
  import opened Catalog

  /** A sub-score as `score || 0` (or a `= 0` destructuring default) reads it. */
  function OrZero(x: Option<real>): real
  {
    x.GetOr(0.0)
  }

  /** story + graphics + gameplay + replayability, a missing score counting as 0. */
  function SubScoreSum(rs: Ratings): real
  {
    OrZero(rs.story) + OrZero(rs.graphics) + OrZero(rs.gameplay) + OrZero(rs.replayability)
  }

  predicate AllScored(rs: Ratings)
  {
    rs.story.Some? && rs.graphics.Some? && rs.gameplay.Some? && rs.replayability.Some?
  }

  predicate NoneScored(rs: Ratings)
  {
    rs.story.None? && rs.graphics.None? && rs.gameplay.None? && rs.replayability.None?
  }

  /** The public category page's rating (`getDisplayedRating`): the overall
      `rating` when there is one, else the sub-score average over a fixed
      denominator of 4, else no rating at all (distinct from 0). */
  function DisplayedRating(obj: Option<Item>): (r: Option<real>)
    ensures r.None? <==> obj.None? || (obj.value.rating.None? && obj.value.ratings.None?)
    ensures obj.Some? && obj.value.rating.Some? ==> r == obj.value.rating
    ensures obj.Some? && obj.value.rating.None? && obj.value.ratings.Some?
            ==> r.Some? && 4.0 * r.value == SubScoreSum(obj.value.ratings.value)
  {
    match obj
    case None => None
    case Some(it) =>
      if it.rating.Some? then it.rating
      else if it.ratings.Some? then Some(SubScoreSum(it.ratings.value) / 4.0)
      else None
  }

  /** The live item page's `calculateAverageRating`: 0 without sub-scores. */
  function AverageRating(ratings: Option<Ratings>): (r: real)
    ensures ratings.None? ==> r == 0.0
    ensures ratings.Some? ==> 4.0 * r == SubScoreSum(ratings.value)
  {
    match ratings
    case None => 0.0
    case Some(rs) => SubScoreSum(rs) / 4.0
  }

  /** The backup item page's inline average, shown only when `ratings` is present. */
  function BackupAverage(it: Item): (r: Option<real>)
    ensures r.Some? <==> it.ratings.Some?
    ensures r.Some? ==> 4.0 * r.value == SubScoreSum(it.ratings.value)
  {
    if it.ratings.Some? then Some(SubScoreSum(it.ratings.value) / 4.0) else None
  }

  /** The admin list's sort score: 0 without `ratings`, the plain sum over 4 with
      all four sub-scores, and None (JavaScript's NaN, from adding `undefined`)
      when only some are present. */
  function AdminScore(it: Item): (r: Option<real>)
    ensures it.ratings.None? ==> r == Some(0.0)
    ensures it.ratings.Some? ==> (r.Some? <==> AllScored(it.ratings.value))
    ensures it.ratings.Some? && r.Some? ==> 4.0 * r.value == SubScoreSum(it.ratings.value)
  {
    match it.ratings
    case None => Some(0.0)
    case Some(rs) =>
      if AllScored(rs)
      then Some((rs.story.value + rs.graphics.value + rs.gameplay.value + rs.replayability.value) / 4.0)
      else None
  }

  /** With all four sub-scores and no overall rating, all four variants agree. */
  lemma VariantsAgree(it: Item)
    requires it.rating.None? && it.ratings.Some? && AllScored(it.ratings.value)
    ensures DisplayedRating(Some(it)) == Some(AverageRating(it.ratings))
    ensures BackupAverage(it) == Some(AverageRating(it.ratings))
    ensures AdminScore(it) == Some(AverageRating(it.ratings))
  {
  }

  /** The variants do disagree elsewhere: an overall rating is seen only by the
      category page, a missing `ratings` is 0 on the item page and in the admin sort
      but "no rating" on the category page, and partial sub-scores break the admin score. */
  lemma VariantsDiffer(it: Item)
    ensures it.rating.Some? && it.ratings.None?
            ==> DisplayedRating(Some(it)) == it.rating && AverageRating(it.ratings) == 0.0
    ensures it.rating.None? && it.ratings.None?
            ==> DisplayedRating(Some(it)).None? && AverageRating(it.ratings) == 0.0
                && AdminScore(it) == Some(0.0)
    ensures it.ratings.Some? && !AllScored(it.ratings.value) ==> AdminScore(it).None?
  {
  }

  /** Sub-scores within [0, 5] give an average within [0, 5]; a missing one
      pulls the average down rather than being left out. */
  lemma AverageWithinScale(rs: Ratings)
    requires forall x :: x in [rs.story, rs.graphics, rs.gameplay, rs.replayability] && x.Some?
                         ==> 0.0 <= x.value <= 5.0
    ensures 0.0 <= AverageRating(Some(rs)) <= 5.0
    ensures !AllScored(rs) ==> AverageRating(Some(rs)) <= 3.75
  {
    assert rs.story in [rs.story, rs.graphics, rs.gameplay, rs.replayability];
    assert rs.graphics in [rs.story, rs.graphics, rs.gameplay, rs.replayability];
    assert rs.gameplay in [rs.story, rs.graphics, rs.gameplay, rs.replayability];
    assert rs.replayability in [rs.story, rs.graphics, rs.gameplay, rs.replayability];
  }

  /** `Math.round`: the nearest integer, halves rounded up. */
  function Round(r: real): (n: int)
    ensures n as real - 0.5 <= r < n as real + 0.5
  {
    (r + 0.5).Floor
  }

  /** The worked examples of the aggregation and rounding rules: halves round up,
      and a rating of 0 is a number, so it is shown rather than skipped. */
  lemma Examples(zeroRated: Item)
    requires zeroRated.rating == Some(0.0)
    ensures AverageRating(Some(Ratings(Some(4.0), None, None, None))) == 1.0
    ensures AverageRating(Some(Ratings(None, None, None, None))) == 0.0
    ensures Round(4.4) == 4 && Round(4.5) == 5 && Round(4.6) == 5
    ensures Round(3.5) == 4 && Round(-2.5) == -2
    ensures DisplayedRating(Some(zeroRated)) == Some(0.0)
  {
  }
}
