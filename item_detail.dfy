/// The lender's item screen: status and rating summary of one listing.
module ItemDetail {
  import opened Wrappers
  import opened Seqs
  import opened Values
  import opened Listings
  import opened Ratings
  import ItemView

  /** What the screen shows about the listing. */
  datatype Details = Details(status: string, average: ItemView.AverageText, ratingsCount: nat)

  /** The screen for a listing; nothing when its `ratings` field holds
      something other than a list of numbers (rendering throws). */
  function Show(listing: Record): (d: Option<Details>)
    ensures d.None? <==> ListedRatings(listing).None?
    ensures d.Some? ==> (d.value.status == "Not Rented" <==> IsAvailable(listing))
    ensures d.Some? ==> (d.value.average.NoRatingsYet? <==> d.value.ratingsCount == 0)
  {
    match ListedRatings(listing)
    case None => None
    case Some(ratings) =>
      var filteredRatings := PositiveRatings(ratings);
      var averageRating := if |filteredRatings| > 0
                           then ItemView.Rated(Sum(filteredRatings) / (|filteredRatings| as real))
                           else ItemView.NoRatingsYet;
      Some(Details(StatusLabel(listing), averageRating, |filteredRatings|))
  }

  /** The lender sees the same status, average and count as a renter does. */
  lemma AgreesWithItemView(listing: Record)
    ensures Show(listing).None? <==> ItemView.Show(listing).None?
    ensures Show(listing).Some? ==>
              && Show(listing).value.status == ItemView.Show(listing).value.status
              && Show(listing).value.average == ItemView.Show(listing).value.average
              && Show(listing).value.ratingsCount == ItemView.Show(listing).value.ratingsCount
  {
  }

  /** The average shown is the positive ratings' average and lies within the
      bounds of the ratings. */
  lemma ShownAverageWithinBounds(listing: Record, lo: real, hi: real)
    requires Show(listing).Some? && Show(listing).value.average.Rated?
    requires forall i :: 0 <= i < |ListedRatings(listing).value| && ListedRatings(listing).value[i] > 0.0
                         ==> lo <= ListedRatings(listing).value[i] <= hi
    ensures lo <= Show(listing).value.average.average <= hi
  {
    AverageWithinBounds(ListedRatings(listing).value, lo, hi);
  }
}
