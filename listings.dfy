/// The snapshot walk shared by the listing screens: every child of
/// `listings/` is visited in order, and the ones owned (or not owned) by the
/// current user are collected with their key as `id`.
module Listings {
  import opened Wrappers
  import opened Text
  import opened Seqs
  import opened Values

  /** `{ id, ...data[id] }`: the node with its key as `id`; a stored `id`
      field, if any, is spread last and wins. */
  function WithId(e: Entry): (r: Record)
    ensures r.Keys == e.node.Keys + {"id"}
    ensures forall f :: f in e.node ==> r[f] == e.node[f]
    ensures "id" !in e.node ==> r["id"] == Str(e.key)
  {
    map["id" := Str(e.key)] + e.node
  }

  /** `node.userEmail === userEmail` for the current user's e-mail (null when
      there is none). */
  predicate OwnedBy(node: Record, email: Option<string>) {
    FieldIs(node, "userEmail", EmailValue(email))
  }

  /** Adding the id leaves ownership as it was. */
  lemma OwnershipIgnoresId(e: Entry, email: Option<string>)
    ensures OwnedBy(WithId(e), email) <==> OwnedBy(e.node, email)
  {
    assert "userEmail" != "id";
  }

  /** The entries kept by a walk: owned ones when `mine`, the others otherwise. */
  function Owner(email: Option<string>, mine: bool): Record -> bool {
    (r: Record) => OwnedBy(r, email) == mine
  }

  /** The list a walk builds, in snapshot order. */
  function Collected(snapshot: seq<Entry>, email: Option<string>, mine: bool): (r: seq<Record>)
    ensures |r| <= |snapshot|
    decreases |snapshot|
  {
    if snapshot == [] then []
    else
      var e := snapshot[|snapshot| - 1];
      Collected(snapshot[..|snapshot| - 1], email, mine)
      + (if OwnedBy(e.node, email) == mine then [WithId(e)] else [])
  }

  /** The `for (let id in data)` loop of the snapshot callbacks. */
  method CollectListings(snapshot: seq<Entry>, email: Option<string>, mine: bool)
    returns (listingsArray: seq<Record>)
    ensures listingsArray == Collected(snapshot, email, mine)
  {
    listingsArray := [];
    var i := 0;
    while i < |snapshot|
      invariant 0 <= i <= |snapshot|
      invariant listingsArray == Collected(snapshot[..i], email, mine)
    {
      var e := snapshot[i];
      if OwnedBy(e.node, email) == mine {
        listingsArray := listingsArray + [WithId(e)];
      }
      assert snapshot[..i + 1][..i] == snapshot[..i];
      i := i + 1;
    }
    assert snapshot[..i] == snapshot;
  }

  /** Every entry with its id, in snapshot order. */
  function WithIds(snapshot: seq<Entry>): (r: seq<Record>)
    ensures |r| == |snapshot| && forall i :: 0 <= i < |snapshot| ==> r[i] == WithId(snapshot[i])
  {
    seq(|snapshot|, i requires 0 <= i < |snapshot| => WithId(snapshot[i]))
  }

  /** The walk is the filter of the entries (with ids) by ownership. */
  lemma {:induction false} CollectedIsFilter(snapshot: seq<Entry>, email: Option<string>, mine: bool)
    ensures Collected(snapshot, email, mine) == Filter(WithIds(snapshot), Owner(email, mine))
    decreases |snapshot|
  {
    if snapshot != [] {
      var init := snapshot[..|snapshot| - 1];
      var e := snapshot[|snapshot| - 1];
      CollectedIsFilter(init, email, mine);
      assert WithIds(snapshot)[..|snapshot| - 1] == WithIds(init);
      OwnershipIgnoresId(e, email);
    }
  }

  /** A record is collected exactly when it is some entry, with its id, whose
      ownership is the one asked for. */
  lemma CollectedMembership(snapshot: seq<Entry>, email: Option<string>, mine: bool, r: Record)
    ensures r in Collected(snapshot, email, mine)
            <==> exists i :: 0 <= i < |snapshot| && r == WithId(snapshot[i]) && OwnedBy(snapshot[i].node, email) == mine
  {
    CollectedIsFilter(snapshot, email, mine);
    FilterMembership(WithIds(snapshot), Owner(email, mine), r);
    if r in WithIds(snapshot) {
      var i :| 0 <= i < |snapshot| && WithIds(snapshot)[i] == r;
      OwnershipIgnoresId(snapshot[i], email);
    }
    forall i | 0 <= i < |snapshot| && r == WithId(snapshot[i])
      ensures r in WithIds(snapshot) && (OwnedBy(r, email) <==> OwnedBy(snapshot[i].node, email))
    {
      assert WithIds(snapshot)[i] == r;
      OwnershipIgnoresId(snapshot[i], email);
    }
  }

  /** The walk keeps the snapshot's order. */
  lemma CollectedKeepsOrder(snapshot: seq<Entry>, email: Option<string>, mine: bool)
    ensures IsSubsequence(Collected(snapshot, email, mine), WithIds(snapshot))
  {
    CollectedIsFilter(snapshot, email, mine);
    FilterIsSubsequence(WithIds(snapshot), Owner(email, mine));
  }

  /** The user's own listings and everyone else's split the snapshot. */
  lemma OwnAndOthersPartition(snapshot: seq<Entry>, email: Option<string>)
    ensures |Collected(snapshot, email, true)| + |Collected(snapshot, email, false)| == |snapshot|
  {
    CollectedIsFilter(snapshot, email, true);
    CollectedIsFilter(snapshot, email, false);
    FilterPartition(WithIds(snapshot), Owner(email, true), Owner(email, false));
  }

  /** The item name when it is a string (`itemName.toLowerCase()` throws
      otherwise). */
  predicate HasName(listing: Record) {
    "itemName" in listing && listing["itemName"].Str?
  }

  /** `listing.itemName.toLowerCase().includes(query.toLowerCase())` for a
      listing with a string name. */
  function NameMatches(query: string): Record -> bool {
    (listing: Record) => HasName(listing) && Contains(Lower(listing["itemName"].s), Lower(query))
  }

  /** Every listing has a string name. */
  predicate AllNamed(listings: seq<Record>) {
    forall i :: 0 <= i < |listings| ==> HasName(listings[i])
  }

  /** Whether a list shows its cards or the "No listings found." text. */
  datatype ListView = NoListingsFound | Cards(items: seq<Record>)

  /** `items.length > 0 ? <FlatList data={items}/> : <Text>No listings found.</Text>`. */
  function Shown(items: seq<Record>): (v: ListView)
    ensures v.NoListingsFound? <==> items == []
    ensures v.Cards? ==> v.items == items
  {
    if |items| > 0 then Cards(items) else NoListingsFound
  }

  /** The status a new listing is written with, and the one checkout writes. */
  const NOT_YET_RENTED: string := "not_yet_rented"
  const RENTED: string := "rented"

  /** `status === 'not_yet_rented'`. */
  predicate IsAvailable(listing: Record) {
    FieldIs(listing, "status", Str(NOT_YET_RENTED))
  }

  /** The status text of the item screens. */
  function StatusLabel(listing: Record): (text: string)
    ensures text == "Not Rented" <==> IsAvailable(listing)
    ensures text == "Rented" <==> !IsAvailable(listing)
  {
    if IsAvailable(listing) then "Not Rented" else "Rented"
  }

  /** The listing carries its key as a string `id`, as the list screens
      hand it to the edit and checkout screens. */
  predicate HasKey(listing: Record) {
    "id" in listing && listing["id"].Str?
  }

  /** `listing.id`: the key of the listing's node. */
  function Key(listing: Record): string
    requires HasKey(listing)
  {
    listing["id"].s
  }

  /** A collected listing carries its snapshot key, unless its node stores an
      `id` field of its own. */
  lemma WithIdHasKey(e: Entry)
    requires "id" !in e.node
    ensures HasKey(WithId(e)) && Key(WithId(e)) == e.key
  {
  }
}
