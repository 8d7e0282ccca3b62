/// The renter's item screen: status, rating summary, rental duration and the
/// rent button, all computed from the listing it was opened with.
module ItemView {
  import opened Wrappers
  import opened Text
  import opened Seqs
  import opened Values
  import opened Listings
  import opened Ratings

  /** A JavaScript number as the relational operators see it. */
  datatype Number = Finite(x: real) | NaN

  /** Every character is a decimal digit. */
  predicate IsDigits(s: string) {
    forall i :: 0 <= i < |s| ==> '0' <= s[i] <= '9'
  }

  /** The value of a string of decimal digits. */
  function DigitsValue(s: string): nat
    requires IsDigits(s)
    decreases |s|
  {
    if s == [] then 0
    else DigitsValue(s[..|s| - 1]) * 10 + (s[|s| - 1] as int - '0' as int)
  }

  /** `String(n)` for a whole number: its decimal digits, most significant
      first, with no leading zero. */
  function Decimal(n: nat): (s: string)
    ensures s != [] && IsDigits(s)
    decreases n
  {
    var last := [(('0' as int) + n % 10) as char];
    if n < 10 then last else Decimal(n / 10) + last
  }

  /** Reading a number's decimal digits gives the number back. */
  lemma {:induction false} DecimalRoundTrip(n: nat)
    ensures DigitsValue(Decimal(n)) == n
    decreases n
  {
    var s := Decimal(n);
    if n < 10 {
      assert s[..0] == [];
    } else {
      DecimalRoundTrip(n / 10);
      assert s[..|s| - 1] == Decimal(n / 10);
    }
  }

  /** `ToNumber` of a string: surrounding white space is ignored, an empty
      string is 0 and a decimal integer is its value; other forms are NaN. */
  function StringToNumber(s: string): (n: Number)
    ensures IsBlank(s) ==> n == Finite(0.0)
  {
    var t := Trim(s);
    if t == "" then Finite(0.0)
    else if IsDigits(t) then Finite(DigitsValue(t) as real)
    else NaN
  }

  /** The number `rentalDuration > 1` compares: a missing field is NaN,
      `null` is 0, and a list becomes the number of its joined text (empty
      is 0, one element is that element, more are NaN). */
  function DurationNumber(listing: Record): (n: Number)
    ensures "rentalDuration" !in listing ==> n == NaN
  {
    if "rentalDuration" !in listing then NaN
    else match listing["rentalDuration"]
      case Num(x) => Finite(x)
      case Null => Finite(0.0)
      case Str(s) => StringToNumber(s)
      case Nums(ns) => if |ns| == 0 then Finite(0.0) else if |ns| == 1 then Finite(ns[0]) else NaN
  }

  /** `rentalDuration > 1 ? 'days' : 'day'`. */
  function DurationSuffix(listing: Record): (suffix: string)
    ensures suffix == "days" <==> DurationNumber(listing).Finite? && DurationNumber(listing).x > 1.0
    ensures suffix == "day" <==> !(DurationNumber(listing).Finite? && DurationNumber(listing).x > 1.0)
  {
    match DurationNumber(listing)
    case Finite(x) => if x > 1.0 then "days" else "day"
    case NaN => "day"
  }

  /** A duration typed into a form as a whole number of days reads as
      "days" exactly when it is more than one. */
  lemma TypedDurationSuffix(listing: Record, n: nat)
    requires FieldIs(listing, "rentalDuration", Str(Decimal(n)))
    ensures DurationSuffix(listing) == (if n > 1 then "days" else "day")
  {
    var s := Decimal(n);
    TrimUnpadded(s);
    DecimalRoundTrip(n);
  }

  /** The average as shown: a number, or 'No ratings yet'. */
  datatype AverageText = NoRatingsYet | Rated(average: real)

  /** The rent button: it opens checkout with the listing, or is disabled. */
  datatype RentButton = RentEnabled(checkout: Record) | RentDisabled

  /** What the screen shows about the listing. */
  datatype Details = Details(status: string, average: AverageText, ratingsCount: nat,
                             durationSuffix: string, rent: RentButton)

  /** The screen for a listing; nothing when its `ratings` field holds
      something other than a list of numbers (rendering throws). */
  function Show(listing: Record): (d: Option<Details>)
    ensures d.None? <==> ListedRatings(listing).None?
    ensures d.Some? ==> (d.value.status == "Not Rented" <==> IsAvailable(listing))
    ensures d.Some? ==> (d.value.rent == RentEnabled(listing) <==> IsAvailable(listing))
    ensures d.Some? ==> (d.value.rent.RentDisabled? <==> d.value.status == "Rented")
    ensures d.Some? ==> (d.value.average.NoRatingsYet? <==> d.value.ratingsCount == 0)
    ensures d.Some? && d.value.average.Rated? ==> d.value.average.average > 0.0
  {
    match ListedRatings(listing)
    case None => None
    case Some(ratings) =>
      var filteredRatings := PositiveRatings(ratings);
      AveragePositive(ratings);
      var averageRating := if |filteredRatings| > 0 then Rated(Sum(filteredRatings) / (|filteredRatings| as real)) else NoRatingsYet;
      var rent := if IsAvailable(listing) then RentEnabled(listing) else RentDisabled;
      Some(Details(StatusLabel(listing), averageRating, |filteredRatings|, DurationSuffix(listing), rent))
  }

  /** The count and the shown average are those of the positive ratings:
      missing ratings count as none, the count plus the dropped ratings is
      every rating, and the average is the ratings' average. */
  lemma ShownRatings(listing: Record)
    requires Show(listing).Some?
    ensures var ratings := ListedRatings(listing).value;
            && ("ratings" !in listing ==> ratings == [])
            && Show(listing).value.ratingsCount + |Filter(ratings, IsNotPositive())| == |ratings|
            && (Show(listing).value.average.NoRatingsYet? <==> Average(ratings).None?)
            && (Show(listing).value.average.Rated? ==> Show(listing).value.average.average == Average(ratings).value)
  {
    CountedAndDropped(ListedRatings(listing).value);
  }
}
