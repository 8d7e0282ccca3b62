/// The lender's listing editor: the form starts from the listing, saving it
/// replaces the listing's node with the form's fields and the owner's
/// e-mail, and deleting it removes the node after confirmation.
module EditListing {
  import opened Wrappers
  import opened Values
  import opened Listings
  import opened Ratings

  /** The form's fields. */
  const FIELDS: set<string> := {"itemName", "description", "price", "rentalDuration", "image", "itemCategory"}

  /** The fields that must be filled in (the image is not checked). */
  const REQUIRED: set<string> := {"itemName", "description", "price", "rentalDuration", "itemCategory"}

  /** `useState(listing.field)` for each form field: a field the listing
      lacks starts `undefined`. */
  function InitialForm(listing: Record, fields: set<string>): (form: Literal)
    ensures form.Keys == fields
    ensures forall f :: f in fields ==> form[f] == Field(listing, f)
  {
    map f | f in fields :: Field(listing, f)
  }

  /** `!a || !b || ...` is false: every required field holds a truthy value. */
  predicate Filled(form: Literal, required: set<string>) {
    forall f :: f in required ==> f in form && form[f].Some? && Truthy(form[f].value)
  }

  /** The literal passed to `set`: the form's fields and the listing's
      `userEmail`. */
  function EditLiteral(form: Literal, listing: Record): (lit: Literal)
    ensures lit.Keys == form.Keys + {"userEmail"}
    ensures lit["userEmail"] == Field(listing, "userEmail")
  {
    form["userEmail" := Field(listing, "userEmail")]
  }

  /** The node a save writes, or nothing when `set` rejects an `undefined`
      field (an image or owner the listing never had). */
  function EditedRecord(form: Literal, listing: Record): Option<Record> {
    Stored(EditLiteral(form, listing))
  }

  /** A saved node holds only the form's fields and the owner: nothing else
      of the listing survives, `status` and `ratings` included. */
  lemma EditedRecordFields(form: Literal, listing: Record, fields: set<string>)
    requires form.Keys == fields && "userEmail" !in fields
    requires EditedRecord(form, listing).Some?
    ensures var r := EditedRecord(form, listing).value;
            && (forall f :: f in r ==> f in fields || f == "userEmail")
            && (forall f :: f in fields ==> (f in r <==> form[f] != Some(Null)))
            && (forall f :: f in fields && f in r ==> Some(r[f]) == form[f])
  {
  }

  /** The saved node keeps the listing's owner, so it stays in the owner's
      list and out of the owner's marketplace. */
  lemma EditKeepsOwner(form: Literal, listing: Record, email: Option<string>)
    requires "userEmail" in listing && listing["userEmail"] != Null
    requires EditedRecord(form, listing).Some?
    ensures OwnedBy(EditedRecord(form, listing).value, email) <==> OwnedBy(listing, email)
  {
  }

  /** Saving an untouched form writes the listing's own values back. */
  lemma UneditedKeepsValues(listing: Record, fields: set<string>)
    requires "userEmail" !in fields
    requires EditedRecord(InitialForm(listing, fields), listing).Some?
    ensures var r := EditedRecord(InitialForm(listing, fields), listing).value;
            forall f :: f in r ==> f in listing && r[f] == listing[f]
  {
  }

  /** As written, a save drops `status` and `ratings`: an available listing
      comes back labelled "Rented" with its rent button disabled, and its
      ratings are lost. */
  lemma EditHidesListing(form: Literal, listing: Record, fields: set<string>)
    requires form.Keys == fields && "status" !in fields && "ratings" !in fields
    requires IsAvailable(listing) && EditedRecord(form, listing).Some?
    ensures var r := EditedRecord(form, listing).value;
            && !IsAvailable(r) && StatusLabel(r) == "Rented"
            && "ratings" !in r && ListedRatings(r) == Some([])
  {
  }

  /** The intended save: the form's fields and the owner are written over
      the listing's node, keeping its other fields (its key is not stored
      inside it). */
  function CorrectedEditedRecord(form: Literal, listing: Record): Option<Record> {
    Stored(Spread(listing - {"id"}) + EditLiteral(form, listing))
  }

  /** With the correction, a save that does not edit `status` or `ratings`
      keeps both, so availability and ratings survive an edit. */
  lemma CorrectedEditKeepsStatusAndRatings(form: Literal, listing: Record, fields: set<string>)
    requires form.Keys == fields && "status" !in fields && "ratings" !in fields
    requires CorrectedEditedRecord(form, listing).Some?
    requires "status" in listing ==> listing["status"] != Null
    requires "ratings" in listing ==> listing["ratings"] != Null
    ensures var r := CorrectedEditedRecord(form, listing).value;
            && (IsAvailable(r) <==> IsAvailable(listing))
            && ListedRatings(r) == ListedRatings(listing)
  {
    var lit := Spread(listing - {"id"}) + EditLiteral(form, listing);
    assert "status" in lit <==> "status" in listing;
    assert "ratings" in lit <==> "ratings" in listing;
  }

  /** How a save attempt ends. */
  datatype EditOutcome = NotFilled | Updated | UpdateFailed

  /** The editor's state: the listing it was opened with and the form. */
  class EditListingScreen {
    const listing: Record
    var form: Literal

    constructor (listing: Record)
      requires HasKey(listing)
      ensures this.listing == listing && form == InitialForm(listing, FIELDS)
    {
      this.listing := listing;
      form := InitialForm(listing, FIELDS);
    }

    /** A field's change handler. */
    method Edit(field: string, value: Value)
      requires field in FIELDS
      modifies this
      ensures form == old(form)[field := Some(value)]
    {
      form := form[field := Some(value)];
    }

    /** `handleUpdateListing`: nothing is written unless every required
      field is filled in; then the node `listings/<id>` is replaced by the
      edited record, unless the write fails. */
    method HandleUpdateListing(db: Database, writeOk: bool) returns (outcome: EditOutcome)
      requires HasKey(listing)
      modifies db
      ensures outcome == NotFilled <==> !Filled(form, REQUIRED)
      ensures outcome == Updated <==> Filled(form, REQUIRED) && EditedRecord(form, listing).Some? && writeOk
      ensures outcome == Updated ==> db.listings == old(db.listings)[Key(listing) := EditedRecord(form, listing).value]
      ensures outcome != Updated ==> db.listings == old(db.listings)
      ensures db.userinfo == old(db.userinfo)
    {
      if !Filled(form, REQUIRED) {
        return NotFilled;
      }
      var written := EditedRecord(form, listing);
      if written.None? || !writeOk {
        return UpdateFailed;
      }
      db.listings := db.listings[Key(listing) := written.value];
      return Updated;
    }

    /** `handleDeleteListing`: after the user confirms, the node
      `listings/<id>` is removed, unless the removal fails; cancelling
      changes nothing. */
    method HandleDeleteListing(db: Database, confirmed: bool, writeOk: bool) returns (deleted: bool)
      requires HasKey(listing)
      modifies db
      ensures deleted <==> confirmed && writeOk
      ensures db.listings == if deleted then old(db.listings) - {Key(listing)} else old(db.listings)
      ensures db.userinfo == old(db.userinfo)
    {
      if !confirmed || !writeOk {
        return false;
      }
      db.listings := db.listings - {Key(listing)};
      return true;
    }
  }
}
