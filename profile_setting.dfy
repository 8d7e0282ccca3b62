/// The lender's profile: the stored profile record, the user's listings and
/// the average of the positive ratings across all of them.
module ProfileSetting {
  import opened Wrappers
  import opened Seqs
  import opened Values
  import opened Listings
  import opened Ratings

  /** The nodes (without ids) of the listings owned by the e-mail. */
  function OwnedNodes(snapshot: seq<Entry>, email: Option<string>): (r: seq<Record>)
    ensures |r| <= |snapshot|
    decreases |snapshot|
  {
    if snapshot == [] then []
    else
      var e := snapshot[|snapshot| - 1];
      OwnedNodes(snapshot[..|snapshot| - 1], email) + (if OwnedBy(e.node, email) then [e.node] else [])
  }

  /** `ratings.push(...node.ratings)` for one owned listing: a list of
      numbers is spread; anything else (a missing field included) makes the
      callback throw (nothing). */
  function SpreadRatings(node: Record): (r: Option<seq<real>>)
    ensures r.Some? <==> "ratings" in node && node["ratings"].Nums?
    ensures r.Some? ==> r.value == node["ratings"].ns
  {
    if "ratings" in node && node["ratings"].Nums? then Some(node["ratings"].ns) else None
  }

  /** The concatenated ratings of the owned listings, in snapshot order, or
      nothing when one of them cannot be spread. */
  function OwnedRatings(snapshot: seq<Entry>, email: Option<string>): (r: Option<seq<real>>)
    decreases |snapshot|
  {
    if snapshot == [] then Some([])
    else
      var e := snapshot[|snapshot| - 1];
      var before := OwnedRatings(snapshot[..|snapshot| - 1], email);
      if !OwnedBy(e.node, email) then before
      else if before.None? || SpreadRatings(e.node).None? then None
      else Some(before.value + SpreadRatings(e.node).value)
  }

  /** The ratings can be collected exactly when every owned listing holds a
      list of numbers. */
  lemma {:induction false} OwnedRatingsDefined(snapshot: seq<Entry>, email: Option<string>)
    ensures OwnedRatings(snapshot, email).Some?
            <==> forall i :: 0 <= i < |snapshot| && OwnedBy(snapshot[i].node, email) ==> SpreadRatings(snapshot[i].node).Some?
    decreases |snapshot|
  {
    if snapshot != [] {
      var init := snapshot[..|snapshot| - 1];
      OwnedRatingsDefined(init, email);
      assert forall i :: 0 <= i < |init| ==> init[i] == snapshot[i];
    }
  }

  /** The owned nodes are the owner walk's records with the id left off
      (when no node stores an `id` field of its own). */
  lemma {:induction false} OwnedNodesAreCollected(snapshot: seq<Entry>, email: Option<string>)
    requires forall i :: 0 <= i < |snapshot| ==> "id" !in snapshot[i].node
    ensures |OwnedNodes(snapshot, email)| == |Collected(snapshot, email, true)|
    ensures forall i :: 0 <= i < |OwnedNodes(snapshot, email)| ==>
              Collected(snapshot, email, true)[i] - {"id"} == OwnedNodes(snapshot, email)[i]
    decreases |snapshot|
  {
    if snapshot != [] {
      var init := snapshot[..|snapshot| - 1];
      var e := snapshot[|snapshot| - 1];
      OwnedNodesAreCollected(init, email);
      assert WithId(e) - {"id"} == e.node;
    }
  }

  /** A new listing of the user, which starts with the ratings `[0]`, leaves
      the profile's average as it was. */
  lemma NewListingKeepsAverage(snapshot: seq<Entry>, email: Option<string>, e: Entry)
    requires OwnedBy(e.node, email)
    requires FieldIs(e.node, "ratings", Nums([0.0]))
    requires OwnedRatings(snapshot, email).Some?
    ensures OwnedRatings(snapshot + [e], email).Some?
    ensures AverageOrZero(OwnedRatings(snapshot + [e], email).value) == AverageOrZero(OwnedRatings(snapshot, email).value)
  {
    var s := snapshot + [e];
    assert s[..|s| - 1] == snapshot;
    var before := OwnedRatings(snapshot, email).value;
    assert OwnedRatings(s, email).value == before + [0.0];
    PositiveRatingsConcat(before, [0.0]);
    assert PositiveRatings([0.0]) == [] by {
      assert [0.0][..0] == [];
    }
    assert PositiveRatings(before + [0.0]) == PositiveRatings(before);
  }

  /** The screen's state slots. */
  class ProfileScreen {
    var userInfo: Option<Record>
    var loading: bool
    var averageRating: real
    var listings: seq<Record>

    constructor ()
      ensures userInfo.None? && loading && averageRating == 0.0 && listings == []
    {
      userInfo := None;
      loading := true;
      averageRating := 0.0;
      listings := [];
    }

    /** The effect with no user signed in: nothing is subscribed and the
        spinner stops. */
    method SignedOut()
      modifies this
      ensures !loading
      ensures userInfo == old(userInfo) && averageRating == old(averageRating) && listings == old(listings)
    {
      loading := false;
    }

    /** The `onValue` callback on `userinfo/<displayName>`: a stored record
        replaces the profile; a missing one leaves it; the spinner stops
        either way. */
    method OnUserInfo(data: Option<Record>)
      modifies this
      ensures userInfo == (if data.Some? then data else old(userInfo))
      ensures !loading
      ensures averageRating == old(averageRating) && listings == old(listings)
    {
      if data.Some? {
        userInfo := data;
      }
      loading := false;
    }

    /** The `onValue` callback on `listings/`: the user's listings are
        collected with their ratings spread into one list, then the average
        of the positive ratings (0 when there is none) is shown. When a
        listing's ratings cannot be spread, the callback throws before
        changing anything. */
    method OnPostsSnapshot(user: AuthUser, snapshot: seq<Entry>) returns (ok: bool)
      modifies this
      ensures ok <==> OwnedRatings(snapshot, user.email).Some?
      ensures ok ==> listings == OwnedNodes(snapshot, user.email)
                     && averageRating == AverageOrZero(OwnedRatings(snapshot, user.email).value)
      ensures !ok ==> listings == old(listings) && averageRating == old(averageRating)
      ensures userInfo == old(userInfo) && loading == old(loading)
    {
      var userListings := [];
      var ratings := [];
      var i := 0;
      while i < |snapshot|
        invariant 0 <= i <= |snapshot|
        invariant userListings == OwnedNodes(snapshot[..i], user.email)
        invariant OwnedRatings(snapshot[..i], user.email) == Some(ratings)
      {
        var node := snapshot[i].node;
        assert snapshot[..i + 1][..i] == snapshot[..i];
        if OwnedBy(node, user.email) {
          userListings := userListings + [node];
          var spread := SpreadRatings(node);
          if spread.None? {
            OwnedRatingsStaysUndefined(snapshot, user.email, i + 1);
            return false;
          }
          ratings := ratings + spread.value;
        }
        i := i + 1;
      }
      assert snapshot[..i] == snapshot;
      listings := userListings;
      var filteredRatings := PositiveRatings(ratings);
      if |filteredRatings| > 0 {
        var total := Sum(filteredRatings);
        averageRating := total / (|filteredRatings| as real);
      } else {
        averageRating := 0.0;
      }
      return true;
    }
  }

  /** Once a prefix of the snapshot has no ratings list, neither has the
      whole snapshot. */
  lemma {:induction false} OwnedRatingsStaysUndefined(snapshot: seq<Entry>, email: Option<string>, n: nat)
    requires n <= |snapshot|
    requires OwnedRatings(snapshot[..n], email).None?
    ensures OwnedRatings(snapshot, email).None?
    decreases |snapshot| - n
  {
    if n < |snapshot| {
      assert snapshot[..n + 1][..n] == snapshot[..n];
      OwnedRatingsStaysUndefined(snapshot, email, n + 1);
    } else {
      assert snapshot[..n] == snapshot;
    }
  }
}
