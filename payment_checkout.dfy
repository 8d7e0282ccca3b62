/// The renter's checkout: once the four card fields are given, the payment
/// request is sent, and on success the listing's node is rewritten as
/// rented by the current user.
module PaymentCheckout {
  import opened Wrappers
  import opened Values
  import opened Listings
  import opened Ratings
  import ItemView

  const DATA_URI_PREFIX: string := "data:image/jpeg;base64,"
  const STOCK_IMAGE_URL: string := "https://i.pinimg.com/236x/bc/fc/1b/bcfc1b5b3d20e3dd637ae6165ba8425f.jpg"

  /** `getImageUri`: the listing's base64 image as a data URI, or the stock
      picture when the listing has no image; nothing for a non-string image
      (its text form is not modelled). */
  function ImageUri(listing: Record): (uri: Option<string>)
    ensures !("image" in listing && Truthy(listing["image"])) ==> uri == Some(STOCK_IMAGE_URL)
  {
    if "image" in listing && Truthy(listing["image"]) then
      if listing["image"].Str? then Some(DATA_URI_PREFIX + listing["image"].s) else None
    else Some(STOCK_IMAGE_URL)
  }

  /** The data URI carries the image unchanged after its prefix. */
  lemma ImageUriRoundTrip(listing: Record, image: string)
    requires FieldIs(listing, "image", Str(image)) && image != ""
    ensures ImageUri(listing).Some?
    ensures var uri := ImageUri(listing).value;
            && |uri| == |DATA_URI_PREFIX| + |image|
            && uri[..|DATA_URI_PREFIX|] == DATA_URI_PREFIX && uri[|DATA_URI_PREFIX|..] == image
  {
    var uri := ImageUri(listing).value;
    assert uri[..|DATA_URI_PREFIX|] == DATA_URI_PREFIX;
    assert uri[|DATA_URI_PREFIX|..] == image;
  }

  /** The body of the payment request; a field whose value is `undefined`
      is left out of the JSON (`None`). */
  datatype PaymentRequest = PaymentRequest(listingId: Option<Value>, amount: Option<Value>, cardHolderName: string,
                                           cardNumber: string, expiryDate: string, cvv: string, action: string)

  /** `{ ...listing, status: 'rented', rentedBy: user.email }` as `set`
      stores it. */
  function RentedRecord(listing: Record, renterEmail: Option<string>): Record {
    var lit := Spread(listing)["status" := Some(Str(RENTED))]["rentedBy" := Some(EmailValue(renterEmail))];
    assert !HasUndefined(lit);
    Stored(lit).value
  }

  /** The rented node is the listing with its status set to rented and the
      renter recorded; every other stored field is kept, so the ratings are
      as they were and the item can no longer be rented. */
  lemma RentedKeepsListing(listing: Record, renterEmail: Option<string>)
    ensures var r := RentedRecord(listing, renterEmail);
            && FieldIs(r, "status", Str(RENTED)) && !IsAvailable(r) && StatusLabel(r) == "Rented"
            && ("rentedBy" in r <==> renterEmail.Some?)
            && (renterEmail.Some? ==> r["rentedBy"] == Str(renterEmail.value))
            && (forall f :: f != "status" && f != "rentedBy" ==>
                  (f in r <==> f in listing && listing[f] != Null) && (f in r ==> r[f] == listing[f]))
  {
  }

  /** The item screen then shows the listing as rented, with the rent button
      disabled and the same rating summary as before. */
  lemma RentedListingShown(listing: Record, renterEmail: Option<string>)
    requires "ratings" in listing ==> listing["ratings"] != Null
    requires ItemView.Show(listing).Some?
    ensures var r := RentedRecord(listing, renterEmail);
            && ItemView.Show(r).Some?
            && ItemView.Show(r).value.rent == ItemView.RentDisabled
            && ItemView.Show(r).value.average == ItemView.Show(listing).value.average
            && ItemView.Show(r).value.ratingsCount == ItemView.Show(listing).value.ratingsCount
  {
    RentedKeepsListing(listing, renterEmail);
    var r := RentedRecord(listing, renterEmail);
    assert ListedRatings(r) == ListedRatings(listing);
  }

  /** How a confirmation ends. */
  datatype CheckoutOutcome = MissingDetails | Paid | PaymentFailed

  /** The checkout's state: the listing it was opened with, the card fields
      and the spinner flag. */
  class PaymentCheckoutScreen {
    const listing: Record
    var cardHolderName: string
    var cardNumber: string
    var expiryDate: string
    var cvv: string
    var loading: bool

    constructor (listing: Record)
      requires HasKey(listing)
      ensures this.listing == listing
      ensures cardHolderName == "" && cardNumber == "" && expiryDate == "" && cvv == "" && !loading
    {
      this.listing := listing;
      cardHolderName := "";
      cardNumber := "";
      expiryDate := "";
      cvv := "";
      loading := false;
    }

    /** The card fields' change handlers. */
    method ChangeCard(cardHolderName: string, cardNumber: string, expiryDate: string, cvv: string)
      modifies this
      ensures this.cardHolderName == cardHolderName && this.cardNumber == cardNumber
      ensures this.expiryDate == expiryDate && this.cvv == cvv && loading == old(loading)
    {
      this.cardHolderName := cardHolderName;
      this.cardNumber := cardNumber;
      this.expiryDate := expiryDate;
      this.cvv := cvv;
    }

    /** The four card fields are given. */
    predicate CardFilled()
      reads this
    {
      cardHolderName != "" && cardNumber != "" && expiryDate != "" && cvv != ""
    }

    /** `handleConfirmPayment`, with `paymentOk` standing for the payment
        service's answer and `writeOk` for the store's: with a card field
        missing nothing is sent; otherwise the request carries the listing's
        id and price, and only an accepted payment, by a signed-in user,
        followed by a successful write, marks the listing rented. The spinner
        is off again after every attempt that sent a request. */
    method HandleConfirmPayment(db: Database, currentUser: Option<AuthUser>, paymentOk: bool, writeOk: bool)
      returns (outcome: CheckoutOutcome, request: Option<PaymentRequest>)
      requires HasKey(listing)
      modifies this, db
      ensures outcome == MissingDetails <==> !CardFilled()
      ensures request.None? <==> !CardFilled()
      ensures request.Some? ==>
                request.value == PaymentRequest(Field(listing, "id"), Field(listing, "price"), cardHolderName,
                                                cardNumber, expiryDate, cvv, "buy")
      ensures outcome == Paid <==> CardFilled() && paymentOk && currentUser.Some? && writeOk
      ensures outcome == Paid ==>
                db.listings == old(db.listings)[Key(listing) := RentedRecord(listing, currentUser.value.email)]
      ensures outcome != Paid ==> db.listings == old(db.listings)
      ensures db.userinfo == old(db.userinfo)
      ensures outcome == MissingDetails ==> loading == old(loading)
      ensures outcome != MissingDetails ==> !loading
      ensures cardHolderName == old(cardHolderName) && cardNumber == old(cardNumber)
      ensures expiryDate == old(expiryDate) && cvv == old(cvv)
    {
      if !CardFilled() {
        return MissingDetails, None;
      }
      loading := true;
      request := Some(PaymentRequest(Field(listing, "id"), Field(listing, "price"), cardHolderName,
                                     cardNumber, expiryDate, cvv, "buy"));
      if !paymentOk || currentUser.None? || !writeOk {
        outcome := PaymentFailed;
      } else {
        db.listings := db.listings[Key(listing) := RentedRecord(listing, currentUser.value.email)];
        outcome := Paid;
      }
      loading := false;
    }
  }
}
