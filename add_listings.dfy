/// The lender's new-listing form: once every field and an image are given,
/// a new node is pushed under `listings/` with the `[0]` ratings sentinel
/// and the not-yet-rented status, and the form is cleared.
module AddListings {
  import opened Wrappers
  import opened Seqs
  import opened Values
  import opened Listings
  import opened Ratings
  import ItemView

  /** The object literal `listingData`: the typed fields, the image, the
      owner's e-mail (`null` when there is none), the ratings `[0]` and the
      status. */
  function ListingData(itemName: string, description: string, price: string, rentalDuration: string,
                       image: string, userEmail: Option<string>, status: string): Literal
  {
    map["itemName" := Some(Str(itemName)), "description" := Some(Str(description)),
        "price" := Some(Str(price)), "rentalDuration" := Some(Str(rentalDuration)),
        "image" := Some(Str(image)), "userEmail" := Some(EmailValue(userEmail)),
        "ratings" := Some(Nums([0.0])), "status" := Some(Str(status))]
  }

  /** The node written for a new listing: `listingData` without its `null`
      owner, if any. */
  function NewListing(itemName: string, description: string, price: string, rentalDuration: string,
                      image: string, userEmail: Option<string>, status: string): Record
  {
    var fields := map["itemName" := Str(itemName), "description" := Str(description),
                      "price" := Str(price), "rentalDuration" := Str(rentalDuration),
                      "image" := Str(image), "ratings" := Nums([0.0]), "status" := Str(status)];
    if userEmail.Some? then fields["userEmail" := Str(userEmail.value)] else fields
  }

  /** The new node holds the seven typed fields, and the owner exactly when
      there is one. */
  lemma NewListingKeys(itemName: string, description: string, price: string, rentalDuration: string,
                       image: string, userEmail: Option<string>, status: string)
    ensures var r := NewListing(itemName, description, price, rentalDuration, image, userEmail, status);
            && ("userEmail" in r <==> userEmail.Some?)
            && r.Keys == {"itemName", "description", "price", "rentalDuration", "image", "ratings", "status"}
                         + (if userEmail.Some? then {"userEmail"} else {})
  {
  }

  /** The new node is exactly what `set` stores for `listingData`: every
      field of the literal, the owner only when there is one. */
  lemma NewListingIsStored(itemName: string, description: string, price: string, rentalDuration: string,
                           image: string, userEmail: Option<string>, status: string)
    ensures Stored(ListingData(itemName, description, price, rentalDuration, image, userEmail, status))
            == Some(NewListing(itemName, description, price, rentalDuration, image, userEmail, status))
  {
    var lit := ListingData(itemName, description, price, rentalDuration, image, userEmail, status);
    var r := NewListing(itemName, description, price, rentalDuration, image, userEmail, status);
    assert !HasUndefined(lit);
    var stored := Stored(lit).value;
    assert forall k :: k in stored <==> k in r;
    assert forall k | k in stored :: stored[k] == r[k];
    assert stored == r;
  }

  /** A new listing is available, has no ratings yet, and is owned by
      exactly the e-mail it was written with: the item screen shows it as
      "Not Rented" with "No ratings yet" and an enabled rent button. */
  lemma NewListingShowsAsNew(itemName: string, description: string, price: string, rentalDuration: string,
                             image: string, userEmail: Option<string>, email: Option<string>)
    ensures var r := NewListing(itemName, description, price, rentalDuration, image, userEmail, NOT_YET_RENTED);
            && IsAvailable(r)
            && FieldIs(r, "ratings", Nums([0.0])) && ListedRatings(r) == Some([0.0]) && Average([0.0]).None?
            && (OwnedBy(r, email) <==> userEmail.Some? && email == userEmail)
            && ItemView.Show(r).Some?
            && ItemView.Show(r).value.status == "Not Rented"
            && ItemView.Show(r).value.average == ItemView.NoRatingsYet
            && ItemView.Show(r).value.ratingsCount == 0
            && ItemView.Show(r).value.rent == ItemView.RentEnabled(r)
  {
    var r := NewListing(itemName, description, price, rentalDuration, image, userEmail, NOT_YET_RENTED);
    assert PositiveRatings([0.0]) == [] by {
      assert [0.0][..0] == [];
    }
  }

  /** A listing pushed by a signed-in user with an e-mail joins the end of
      that user's own list and of no one else's. */
  lemma NewListingJoinsOwnList(snapshot: seq<Entry>, key: string, r: Record, email: Option<string>, userEmail: string)
    requires FieldIs(r, "userEmail", Str(userEmail))
    ensures Collected(snapshot + [Entry(key, r)], email, true)
            == Collected(snapshot, email, true) + (if email == Some(userEmail) then [WithId(Entry(key, r))] else [])
  {
    var s := snapshot + [Entry(key, r)];
    assert s[..|s| - 1] == snapshot;
  }

  /** How an add attempt ends. */
  datatype AddOutcome = NotFilled | Added | AddFailed

  /** The form's state slots. */
  class AddListingsScreen {
    var image: Option<string>
    var itemName: string
    var description: string
    var price: string
    var rentalDuration: string
    var status: string

    /** The form is in its initial state. */
    predicate Cleared()
      reads this
    {
      image.None? && itemName == "" && description == "" && price == "" && rentalDuration == ""
      && status == NOT_YET_RENTED
    }

    constructor ()
      ensures Cleared()
    {
      image := None;
      itemName := "";
      description := "";
      price := "";
      rentalDuration := "";
      status := NOT_YET_RENTED;
    }

    /** The image picker's result. */
    method PickImage(base64: string)
      modifies this
      ensures image == Some(base64)
      ensures itemName == old(itemName) && description == old(description) && price == old(price)
      ensures rentalDuration == old(rentalDuration) && status == old(status)
    {
      image := Some(base64);
    }

    /** The text fields' change handlers. */
    method ChangeText(itemName: string, description: string, price: string, rentalDuration: string)
      modifies this
      ensures this.itemName == itemName && this.description == description
      ensures this.price == price && this.rentalDuration == rentalDuration
      ensures image == old(image) && status == old(status)
    {
      this.itemName := itemName;
      this.description := description;
      this.price := price;
      this.rentalDuration := rentalDuration;
    }

    /** Every field and an image are given. */
    predicate Filled()
      reads this
    {
      itemName != "" && description != "" && price != "" && rentalDuration != ""
      && image.Some? && image.value != ""
    }

    /** `handleAddListing`, with `pushKey` the key `push` generates: the new
        node is written under it, leaving every existing listing as it was,
        and the form is cleared; when the write fails, the form keeps what
        was entered. */
    method HandleAddListing(db: Database, currentUser: Option<AuthUser>, pushKey: string, writeOk: bool)
      returns (outcome: AddOutcome)
      requires pushKey !in db.listings
      modifies this, db
      ensures outcome == NotFilled <==> !old(Filled())
      ensures outcome == Added <==> old(Filled()) && writeOk
      ensures outcome == Added ==>
                && db.listings == old(db.listings)[pushKey := NewListing(old(itemName), old(description), old(price),
                                      old(rentalDuration), old(image).value, CurrentEmail(currentUser), old(status))]
                && Cleared()
      ensures outcome != Added ==>
                && db.listings == old(db.listings)
                && image == old(image) && itemName == old(itemName) && description == old(description)
                && price == old(price) && rentalDuration == old(rentalDuration) && status == old(status)
      ensures db.userinfo == old(db.userinfo)
    {
      if !Filled() {
        return NotFilled;
      }
      var userEmail := CurrentEmail(currentUser);
      var listingData := NewListing(itemName, description, price, rentalDuration, image.value, userEmail, status);
      if !writeOk {
        return AddFailed;
      }
      db.listings := db.listings[pushKey := listingData];
      image := None;
      itemName := "";
      description := "";
      price := "";
      rentalDuration := "";
      status := NOT_YET_RENTED;
      return Added;
    }
  }
}
