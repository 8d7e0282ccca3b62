/// The older "Your Listings" screen: the same owner walk over the snapshot,
/// with no category or search narrowing.
module LegacyYourListings {
  import opened Wrappers
  import opened Values
  import opened Listings

  /** The screen's one state slot. */
  class LegacyYourListingsScreen {
    var listings: seq<Record>

    constructor ()
      ensures listings == []
    {
      listings := [];
    }

    /** The `onValue` callback on `listings/`: the current user's listings,
        each with its key as `id`, in snapshot order. */
    method OnSnapshot(snapshot: seq<Entry>, currentUser: Option<AuthUser>)
      modifies this
      ensures listings == Collected(snapshot, CurrentEmail(currentUser), true)
    {
      var userEmail := CurrentEmail(currentUser);
      var listingsArray := CollectListings(snapshot, userEmail, true);
      listings := listingsArray;
    }

    /** What the screen renders: the cards, or the empty-list text when the
        user owns nothing. */
    function View(): (v: ListView)
      reads this
      ensures v.NoListingsFound? <==> listings == []
      ensures v.Cards? ==> v.items == listings
    {
      Shown(listings)
    }
  }
}
