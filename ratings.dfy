/// Rating aggregation shared by the item screens and the profile: ratings
/// that are not positive (the `0` every new listing starts with) are dropped,
/// and the rest are counted and averaged.
module Ratings {
  import opened Wrappers
  import opened Seqs
  import opened Values

  /** `rating => rating > 0`. */
  function IsPositive(): real -> bool {
    (x: real) => x > 0.0
  }

  /** The complement of `IsPositive`. */
  function IsNotPositive(): real -> bool {
    (x: real) => x <= 0.0
  }

  /** `ratings.filter(rating => rating > 0)`. */
  function PositiveRatings(ratings: seq<real>): (r: seq<real>)
    ensures |r| <= |ratings|
    ensures forall i :: 0 <= i < |r| ==> r[i] > 0.0
  {
    Filter(ratings, IsPositive())
  }

  /** A rating is kept exactly when it occurs and is positive. */
  lemma PositiveRatingsMembership(ratings: seq<real>, x: real)
    ensures x in PositiveRatings(ratings) <==> x in ratings && x > 0.0
  {
    FilterMembership(ratings, IsPositive(), x);
  }

  /** The kept ratings are in their original order. */
  lemma PositiveRatingsKeepOrder(ratings: seq<real>)
    ensures IsSubsequence(PositiveRatings(ratings), ratings)
  {
    FilterIsSubsequence(ratings, IsPositive());
  }

  /** Every rating is either counted or dropped as not positive. */
  lemma CountedAndDropped(ratings: seq<real>)
    ensures |PositiveRatings(ratings)| + |Filter(ratings, IsNotPositive())| == |ratings|
  {
    FilterPartition(ratings, IsPositive(), IsNotPositive());
  }

  /** The ratings of several listings, put together, keep the positive
      ratings of each. */
  lemma PositiveRatingsConcat(a: seq<real>, b: seq<real>)
    ensures PositiveRatings(a + b) == PositiveRatings(a) + PositiveRatings(b)
  {
    FilterConcat(a, b, IsPositive());
  }

  /** The initial `0` of a new listing changes nothing. */
  lemma SentinelIgnored(ratings: seq<real>)
    ensures PositiveRatings([0.0] + ratings) == PositiveRatings(ratings)
  {
    PositiveRatingsConcat([0.0], ratings);
    assert Filter([], IsPositive()) == [];
    assert [0.0][..0] == [];
  }

  /** `ratings.reduce((a, b) => a + b, 0)`. */
  function Sum(ratings: seq<real>): real
    decreases |ratings|
  {
    if ratings == [] then 0.0 else Sum(ratings[..|ratings| - 1]) + ratings[|ratings| - 1]
  }

  /** A sum of ratings lies between the count times the smallest bound and
      the count times the largest. */
  lemma {:induction false} SumBounds(ratings: seq<real>, lo: real, hi: real)
    requires forall i :: 0 <= i < |ratings| ==> lo <= ratings[i] <= hi
    ensures (|ratings| as real) * lo <= Sum(ratings) <= (|ratings| as real) * hi
    decreases |ratings|
  {
    if ratings != [] {
      var n := |ratings| - 1;
      SumBounds(ratings[..n], lo, hi);
      assert (n as real + 1.0) * lo == (n as real) * lo + lo;
      assert (n as real + 1.0) * hi == (n as real) * hi + hi;
    }
  }

  /** The average of the positive ratings, or nothing when there are none
      (the screens show 'No ratings yet' or 0 then). */
  function Average(ratings: seq<real>): (a: Option<real>)
    ensures a.None? <==> forall i :: 0 <= i < |ratings| ==> ratings[i] <= 0.0
  {
    NoPositiveRatings(ratings);
    var kept := PositiveRatings(ratings);
    if |kept| > 0 then Some(Sum(kept) / (|kept| as real)) else None
  }

  /** There is nothing to average exactly when no rating is positive. */
  lemma NoPositiveRatings(ratings: seq<real>)
    ensures PositiveRatings(ratings) == [] <==> forall i :: 0 <= i < |ratings| ==> ratings[i] <= 0.0
  {
    if PositiveRatings(ratings) != [] {
      var x := PositiveRatings(ratings)[0];
      PositiveRatingsMembership(ratings, x);
    } else {
      forall i | 0 <= i < |ratings|
        ensures ratings[i] <= 0.0
      {
        PositiveRatingsMembership(ratings, ratings[i]);
      }
    }
  }

  /** A non-empty sum of positive ratings is positive. */
  lemma {:induction false} SumPositive(ratings: seq<real>)
    requires ratings != []
    requires forall i :: 0 <= i < |ratings| ==> ratings[i] > 0.0
    ensures Sum(ratings) > 0.0
    decreases |ratings|
  {
    if |ratings| > 1 {
      SumPositive(ratings[..|ratings| - 1]);
    } else {
      assert ratings[..0] == [];
    }
  }

  /** An average, when there is one, is positive. */
  lemma AveragePositive(ratings: seq<real>)
    ensures Average(ratings).Some? ==> Average(ratings).value > 0.0
  {
    var kept := PositiveRatings(ratings);
    if |kept| > 0 {
      SumPositive(kept);
    }
  }

  /** Dividing by a positive count keeps the bounds. */
  lemma QuotientBounds(total: real, n: real, lo: real, hi: real)
    requires n > 0.0
    requires n * lo <= total <= n * hi
    ensures lo <= total / n <= hi
  {
    var a := total / n;
    assert (a - lo) * n == total - n * lo;
    assert (hi - a) * n == n * hi - total;
  }

  /** The average lies within any bounds the positive ratings lie within. */
  lemma AverageWithinBounds(ratings: seq<real>, lo: real, hi: real)
    requires forall i :: 0 <= i < |ratings| && ratings[i] > 0.0 ==> lo <= ratings[i] <= hi
    ensures Average(ratings).Some? ==> lo <= Average(ratings).value <= hi
  {
    var kept := PositiveRatings(ratings);
    if |kept| > 0 {
      forall i | 0 <= i < |kept|
        ensures lo <= kept[i] <= hi
      {
        PositiveRatingsMembership(ratings, kept[i]);
      }
      SumBounds(kept, lo, hi);
      QuotientBounds(Sum(kept), |kept| as real, lo, hi);
    }
  }

  /** The profile's figure: the average, or 0 when there is no positive rating. */
  function AverageOrZero(ratings: seq<real>): (a: real)
    ensures a == 0.0 <==> forall i :: 0 <= i < |ratings| ==> ratings[i] <= 0.0
  {
    AveragePositive(ratings);
    match Average(ratings)
    case Some(v) => v
    case None => 0.0
  }

  /** `const { ratings = [] } = listing` followed by `ratings.filter(...)`:
      a missing field counts as no ratings; any stored value other than a
      list of numbers makes the screen throw (nothing). */
  function ListedRatings(listing: Record): (r: Option<seq<real>>)
    ensures "ratings" !in listing ==> r == Some([])
    ensures r.Some? && "ratings" in listing ==> listing["ratings"] == Nums(r.value)
  {
    if "ratings" !in listing then Some([])
    else match listing["ratings"]
      case Nums(ns) => Some(ns)
      case _ => None
  }
}
