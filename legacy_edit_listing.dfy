/// The older listing editor: the same save with no category field, so the
/// written node has no `itemCategory` either.
module LegacyEditListing {
  import opened Wrappers
  import opened Values
  import opened Listings
  import opened EditListing

  /** The form's fields. */
  const LEGACY_FIELDS: set<string> := {"itemName", "description", "price", "rentalDuration", "image"}

  /** The fields that must be filled in (the image is not checked). */
  const LEGACY_REQUIRED: set<string> := {"itemName", "description", "price", "rentalDuration"}

  /** A save of this form drops the listing's category along with its status
      and ratings. */
  lemma LegacyEditDropsCategory(form: Literal, listing: Record)
    requires form.Keys == LEGACY_FIELDS
    requires EditedRecord(form, listing).Some?
    ensures var r := EditedRecord(form, listing).value;
            "itemCategory" !in r && "status" !in r && "ratings" !in r
  {
    EditedRecordFields(form, listing, LEGACY_FIELDS);
  }

  /** The editor's state: the listing it was opened with and the form. */
  class LegacyEditListingScreen {
    const listing: Record
    var form: Literal

    constructor (listing: Record)
      requires HasKey(listing)
      ensures this.listing == listing && form == InitialForm(listing, LEGACY_FIELDS)
    {
      this.listing := listing;
      form := InitialForm(listing, LEGACY_FIELDS);
    }

    /** A field's change handler. */
    method Edit(field: string, value: Value)
      requires field in LEGACY_FIELDS
      modifies this
      ensures form == old(form)[field := Some(value)]
    {
      form := form[field := Some(value)];
    }

    /** `handleUpdateListing`: nothing is written unless the four text
      fields are filled in; then the node `listings/<id>` is replaced by the
      edited record, unless the write fails. */
    method HandleUpdateListing(db: Database, writeOk: bool) returns (outcome: EditOutcome)
      requires HasKey(listing)
      modifies db
      ensures outcome == NotFilled <==> !Filled(form, LEGACY_REQUIRED)
      ensures outcome == Updated <==> Filled(form, LEGACY_REQUIRED) && EditedRecord(form, listing).Some? && writeOk
      ensures outcome == Updated ==> db.listings == old(db.listings)[Key(listing) := EditedRecord(form, listing).value]
      ensures outcome != Updated ==> db.listings == old(db.listings)
      ensures db.userinfo == old(db.userinfo)
    {
      if !Filled(form, LEGACY_REQUIRED) {
        return NotFilled;
      }
      var written := EditedRecord(form, listing);
      if written.None? || !writeOk {
        return UpdateFailed;
      }
      db.listings := db.listings[Key(listing) := written.value];
      return Updated;
    }
  }
}
