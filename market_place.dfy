/// The renter's marketplace: every listing that is not the current user's,
/// and a search that narrows them by item name.
module MarketPlace {
  import opened Wrappers
  import opened Text
  import opened Seqs
  import opened Values
  import opened Listings
  import YourListings

  /** The listings whose name contains the text, ignoring case; nothing when
      some listing has no string `itemName` (the `filter` callback throws). */
  function SearchResult(listings: seq<Record>, text: string): (r: Option<seq<Record>>)
    ensures r.None? <==> !AllNamed(listings)
  {
    if AllNamed(listings) then Some(Filter(listings, NameMatches(text))) else None
  }

  /** A listing is found exactly when it is listed and its name contains the
      text, ignoring case; the found ones keep their order. */
  lemma SearchMembership(listings: seq<Record>, text: string, x: Record)
    requires AllNamed(listings)
    ensures x in SearchResult(listings, text).value
            <==> x in listings && Contains(Lower(x["itemName"].s), Lower(text))
    ensures IsSubsequence(SearchResult(listings, text).value, listings)
  {
    FilterMembership(listings, NameMatches(text), x);
    if x in listings {
      var i :| 0 <= i < |listings| && listings[i] == x;
      assert HasName(listings[i]);
    }
    FilterIsSubsequence(listings, NameMatches(text));
  }

  /** Every string contains the empty string. */
  lemma ContainsEmpty(s: string)
    ensures Contains(s, "")
  {
    assert "" <= s;
  }

  /** Clearing the search shows every listing again. */
  lemma EmptySearchShowsAll(listings: seq<Record>)
    requires AllNamed(listings)
    ensures SearchResult(listings, "") == Some(listings)
  {
    forall i | 0 <= i < |listings|
      ensures NameMatches("")(listings[i])
    {
      ContainsEmpty(Lower(listings[i]["itemName"].s));
    }
    FilterAll(listings, NameMatches(""));
  }

  /** A non-empty search finds what the lender screen's search finds with no
      category selected. */
  lemma SearchAgreesWithYourListings(listings: seq<Record>, text: string)
    requires text != ""
    ensures SearchResult(listings, text) == YourListings.FilteredListings(listings, "", text)
  {
    if AllNamed(listings) {
      FilterSameTest(listings, NameMatches(text), YourListings.Matches("", text));
    }
  }

  /** The screen's state slots. */
  class MarketPlaceScreen {
    var searchQuery: string
    var listings: seq<Record>
    var filteredData: seq<Record>

    constructor ()
      ensures searchQuery == "" && listings == [] && filteredData == []
    {
      searchQuery := "";
      listings := [];
      filteredData := [];
    }

    /** The `onValue` callback on `listings/`: everyone else's listings, each
        with its key as `id`; any active search is discarded. */
    method OnSnapshot(snapshot: seq<Entry>, currentUser: Option<AuthUser>)
      modifies this
      ensures listings == Collected(snapshot, CurrentEmail(currentUser), false)
      ensures filteredData == listings
      ensures searchQuery == old(searchQuery)
    {
      var userEmail := CurrentEmail(currentUser);
      var listingsArray := CollectListings(snapshot, userEmail, false);
      listings := listingsArray;
      filteredData := listingsArray;
    }

    /** `handleSearch`: the query is recorded, then the listings (never the
        previous results) are filtered; when the filter throws, the results
        stay as they were. */
    method HandleSearch(text: string) returns (ok: bool)
      modifies this
      ensures searchQuery == text && listings == old(listings)
      ensures ok <==> SearchResult(listings, text).Some?
      ensures filteredData == (if ok then SearchResult(listings, text).value else old(filteredData))
    {
      searchQuery := text;
      var result := SearchResult(listings, text);
      if result.None? {
        return false;
      }
      filteredData := result.value;
      return true;
    }
  }
}
