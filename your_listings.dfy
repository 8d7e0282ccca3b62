/// The lender's own listings: the snapshot callback keeps the current user's
/// listings, and the rendered list is narrowed by category and by a
/// case-insensitive search on the item name.
module YourListings {
  import opened Wrappers
  import opened Text
  import opened Seqs
  import opened Values
  import opened Listings

  /** `selectedCategory ? listing.itemCategory === selectedCategory : true`. */
  predicate MatchesCategory(listing: Record, category: string) {
    category == "" || FieldIs(listing, "itemCategory", Str(category))
  }

  /** `searchQuery ? <name contains query, ignoring case> : true`. */
  predicate MatchesSearch(listing: Record, query: string) {
    query == "" || NameMatches(query)(listing)
  }

  /** The test of the `filter` callback. */
  function Matches(category: string, query: string): Record -> bool {
    (listing: Record) => MatchesCategory(listing, category) && MatchesSearch(listing, query)
  }

  /** `filteredListings`. Both tests are evaluated for every listing, so a
      non-empty query on a list holding a listing without a string
      `itemName` throws during rendering (nothing). */
  function FilteredListings(listings: seq<Record>, category: string, query: string): (r: Option<seq<Record>>)
    ensures r.None? <==> query != "" && !AllNamed(listings)
  {
    if query != "" && !AllNamed(listings) then None
    else Some(Filter(listings, Matches(category, query)))
  }

  /** A listing is shown exactly when it is in the list and passes both tests. */
  lemma FilteredMembership(listings: seq<Record>, category: string, query: string, x: Record)
    requires FilteredListings(listings, category, query).Some?
    ensures x in FilteredListings(listings, category, query).value
            <==> x in listings && MatchesCategory(x, category) && MatchesSearch(x, query)
  {
    FilterMembership(listings, Matches(category, query), x);
  }

  /** The shown listings keep the list's order. */
  lemma FilteredKeepsOrder(listings: seq<Record>, category: string, query: string)
    requires FilteredListings(listings, category, query).Some?
    ensures IsSubsequence(FilteredListings(listings, category, query).value, listings)
  {
    FilterIsSubsequence(listings, Matches(category, query));
  }

  /** Filtering the shown list again shows the same list. */
  lemma FilteredIdempotent(listings: seq<Record>, category: string, query: string)
    requires FilteredListings(listings, category, query).Some?
    ensures FilteredListings(FilteredListings(listings, category, query).value, category, query)
            == FilteredListings(listings, category, query)
  {
    var shown := FilteredListings(listings, category, query).value;
    if query != "" {
      forall i | 0 <= i < |shown|
        ensures HasName(shown[i])
      {
        assert Matches(category, query)(shown[i]);
      }
    }
    FilterIdempotent(listings, Matches(category, query));
  }

  /** With no category and no query, every listing is shown. */
  lemma NoFilterShowsAll(listings: seq<Record>)
    ensures FilteredListings(listings, "", "") == Some(listings)
  {
    FilterAll(listings, Matches("", ""));
  }

  /** The screen's state slots. */
  class YourListingsScreen {
    var listings: seq<Record>
    var selectedCategory: string
    var searchQuery: string

    constructor ()
      ensures listings == [] && selectedCategory == "" && searchQuery == ""
    {
      listings := [];
      selectedCategory := "";
      searchQuery := "";
    }

    /** The `onValue` callback on `listings/`: the current user's listings,
        each with its key as `id`. */
    method OnSnapshot(snapshot: seq<Entry>, currentUser: Option<AuthUser>)
      modifies this
      ensures listings == Collected(snapshot, CurrentEmail(currentUser), true)
      ensures selectedCategory == old(selectedCategory) && searchQuery == old(searchQuery)
    {
      var userEmail := CurrentEmail(currentUser);
      var listingsArray := CollectListings(snapshot, userEmail, true);
      listings := listingsArray;
    }

    /** The category picker's change handler. */
    method SelectCategory(category: string)
      modifies this
      ensures selectedCategory == category
      ensures listings == old(listings) && searchQuery == old(searchQuery)
    {
      selectedCategory := category;
    }

    /** The search field's change handler. */
    method ChangeSearch(query: string)
      modifies this
      ensures searchQuery == query
      ensures listings == old(listings) && selectedCategory == old(selectedCategory)
    {
      searchQuery := query;
    }

    /** What the screen renders: the filtered list or the empty-list text. */
    function View(): (v: Option<ListView>)
      reads this
      ensures v.None? <==> FilteredListings(listings, selectedCategory, searchQuery).None?
      ensures v.Some? ==> (v.value.NoListingsFound? <==> FilteredListings(listings, selectedCategory, searchQuery) == Some([]))
    {
      match FilteredListings(listings, selectedCategory, searchQuery)
      case Some(shown) => Some(Shown(shown))
      case None => None
    }
  }
}
