# Rentally core, modelled in Dafny

Rentally is a React Native marketplace where lenders list items and renters
rent them. The screens are glue around a hosted realtime database (the
`listings/` and `userinfo/` trees), an authentication service, a
text-generation endpoint and the device's key-value storage. Under that glue
are small sequential rules. This project models them and proves what they
promise:

- **Chat.** The chat service derives a storage key per user and saves,
  loads and clears a message log. It flattens a newest-first log into one
  prompt and falls back to fixed texts when the endpoint fails. The chat
  screen resolves who the user is, repairs ids in a loaded history, and puts
  a send in front of the log. It fills the assistant placeholder with the
  reply and resets the log on request. The older offline bot picks a canned
  reply by case-insensitive keyword priority.
- **Listing selection and ratings.** A snapshot walk collects the current
  user's listings, or everyone else's, with their key as `id`. The lists are
  then narrowed by category and by a case-insensitive name search. Ratings
  that are not positive (the `0` every listing starts with) are dropped, and
  the rest are counted and averaged.
- **Writes to the database.** The model covers:
  - the new-listing form;
  - both listing editors, where `set` replaces the whole node;
  - deleting a listing;
  - checkout, which marks a listing rented;
  - the profile editor's rename protocol over `userinfo/<username>`.

Each source file is one module. Screens whose handlers update state step by
step are classes: their state slots are fields and their handlers are
methods with `modifies` clauses. The database is a `Database` object with two
`map<string, Record>` fields, and the chat storage is an `AsyncStorage`
object with a map field. Pure computations are functions with lemmas. A
method is proved against a specification function whose properties are
proved as lemmas: `HandleUpdateProfile` against `SaveAttempt`,
`CollectListings` against `Collected`, `BuildPrompt` against `PromptParts`.

JavaScript values are modelled as `Value = Str | Num | Nums | Null`. A
database node is a `map<string, Value>`, and a field missing from the map is
`undefined`. An object literal about to be written is a `Literal`, whose
fields may be `undefined` (`None`). `Values.Stored` gives the semantics of
`set`: an `undefined` field makes the write fail, and `null` fields are not
stored. `Values.Merge` gives the semantics of `update`. A snapshot is the
list of its children in the order `for...in` visits them.

The world outside is passed in as parameters:

- `ioOk` and `writeOk` say whether a storage or database call succeeds;
- `paymentOk` is the payment service's answer;
- `HttpOutcome` is what the text-generation endpoint did;
- `FailurePoint` is the step at which the profile save fails;
- `pushKey` is the key `push` generates, and `freshId` and the message ids
  are the id generator's values;
- `now` is the clock's reading.

## Model

| member | source | states |
|---|---|---|
| Text.Trim | LenderComponents/GeminiService.tsx:62 | `trim()` is empty exactly when the text is all white space; otherwise it starts and ends with a non-white character |
| Text.TrimIsSlice | LenderComponents/GeminiService.tsx:62 | `trim()` returns the slice of the text between its leading and trailing white space, and only white space is dropped |
| Text.Lower | LenderComponents/YourListings.tsx:43 | `toLowerCase()` keeps the length and lowercases each (ASCII) character |
| Text.LowerIdempotent | RenterComponents/MarketPlace.tsx:55 | lowercasing twice is lowercasing once |
| Text.ContainsAt | LenderComponents/YourListings.tsx:43 | an occurrence of `sub` at any position makes `includes(sub)` true |
| Text.Join | LenderComponents/GeminiService.tsx:75 | `join` begins with the first part |
| Text.JoinSnoc | LenderComponents/GeminiService.tsx:75 | joining one more part appends the separator and that part |
| Seqs.Reverse | LenderComponents/GeminiService.tsx:53 | `[...s].reverse()` has the same length, and element i is element `n-1-i` of the input |
| Seqs.ReverseConcat | LenderComponents/GeminiService.tsx:53 | reversing `a + b` gives `reverse(b) + reverse(a)` |
| Seqs.Filter | LenderComponents/YourListings.tsx:40-46 | `filter` keeps only elements passing the test and never grows the list |
| Seqs.FilterIsSubsequence | LenderComponents/YourListings.tsx:40-46 | a filtered list is an order-preserving subsequence of its input |
| Seqs.FilterMembership | LenderComponents/YourListings.tsx:40-46 | an element is kept exactly when it occurs in the input and passes the test |
| Seqs.FilterIdempotent | LenderComponents/YourListings.tsx:40-46 | filtering again by the same test changes nothing |
| Seqs.FilterConcat | LenderComponents/ProfileSetting.tsx:40-46 | filtering distributes over concatenation |
| Seqs.FilterPartition | RenterComponents/MarketPlace.tsx:37 | two complementary tests split a list: the kept counts add up to its length |
| Values.EmailValue | LenderComponents/YourListings.tsx:21 | the stored e-mail is `null` exactly when there is none |
| Values.CurrentEmail | LenderComponents/YourListings.tsx:21 | an e-mail is only ever the signed-in user's |
| Values.Field | LenderComponents/EditListing.tsx:10-15 | `node.field` is defined exactly when the node has the field, and then holds its value |
| Values.Spread | RenterComponents/PaymentCheckoutScreen.tsx:54 | `{...node}` has the node's fields with their values |
| Values.Stored | LenderComponents/EditListing.tsx:28-36 | `set` fails exactly when a field is `undefined`; otherwise it stores exactly the non-null fields, with their values |
| Values.Merge | LenderComponents/EditProfile.tsx:113 | `update` sets the non-null changed fields, deletes those set to `null`, and keeps every other field |
| Listings.WithId | LenderComponents/YourListings.tsx:26 | `{ id, ...node }` has the node's fields plus `id`; the node's values win; `id` is the key when the node stores none |
| Listings.OwnershipIgnoresId | LenderComponents/YourListings.tsx:25-26 | adding `id` does not change whether a listing is the user's |
| Listings.Collected | lendercomponents/YourListings.tsx:20-25 | the walk's result is no longer than the snapshot |
| Listings.CollectListings | LenderComponents/YourListings.tsx:20-28 | the `for...in` loop with `push` builds exactly the specified walk |
| Listings.WithIds | RenterComponents/MarketPlace.tsx:38 | every entry with its id, position by position |
| Listings.CollectedIsFilter | lendercomponents/YourListings.tsx:20-24 | the walk is the filter of the entries (with ids) by `userEmail === email` (or `!==` for the marketplace) |
| Listings.CollectedMembership | lendercomponents/YourListings.tsx:22-23 | a record is collected exactly when it is some entry with its id whose ownership is the one asked for |
| Listings.CollectedKeepsOrder | LenderComponents/YourListings.tsx:23-26 | the collected list keeps snapshot order |
| Listings.OwnAndOthersPartition | RenterComponents/MarketPlace.tsx:37 | the user's listings and the marketplace's are complementary: their sizes add up to the snapshot's |
| Listings.Shown | LenderComponents/YourListings.tsx:109-117 | "No listings found." exactly when the list is empty, else the cards of the list |
| Listings.StatusLabel | RenterComponents/ItemView.tsx:73 | "Not Rented" exactly when `status === 'not_yet_rented'`, else "Rented" |
| Listings.WithIdHasKey | LenderComponents/EditListing.tsx:27 | a collected listing's `id` is its node's key, so `listings/${listing.id}` names its own node |
| Ratings.PositiveRatings | RenterComponents/ItemView.tsx:39 | only positive ratings are kept, and never more than there were |
| Ratings.PositiveRatingsMembership | RenterComponents/ItemView.tsx:39 | a rating is kept exactly when it occurs and is positive |
| Ratings.PositiveRatingsKeepOrder | LenderComponents/ItemDetail.tsx:32 | the kept ratings keep their order |
| Ratings.CountedAndDropped | RenterComponents/ItemView.tsx:50 | the count of kept ratings plus the dropped ones is the number of ratings |
| Ratings.PositiveRatingsConcat | LenderComponents/ProfileSetting.tsx:40-46 | the positive ratings of concatenated lists are the concatenation of each list's |
| Ratings.SentinelIgnored | lendercomponents/AddListings.tsx:56 | the initial `0` rating changes no count or average |
| Ratings.SumBounds | RenterComponents/ItemView.tsx:45 | a sum lies between count times the lower bound and count times the upper bound |
| Ratings.Average | RenterComponents/ItemView.tsx:42-47 | there is no average exactly when no rating is positive |
| Ratings.NoPositiveRatings | LenderComponents/ItemDetail.tsx:35-37 | nothing is left to average exactly when every rating is at most 0 |
| Ratings.SumPositive | LenderComponents/ProfileSetting.tsx:48 | a non-empty sum of positive ratings is positive |
| Ratings.AveragePositive | LenderComponents/ProfileSetting.tsx:47-50 | an average, when there is one, is positive |
| Ratings.AverageWithinBounds | RenterComponents/ItemView.tsx:42-47 | the average lies within any bounds the positive ratings lie within |
| Ratings.AverageOrZero | LenderComponents/ProfileSetting.tsx:46-53 | the profile's figure is 0 exactly when no rating is positive |
| Ratings.ListedRatings | RenterComponents/ItemView.tsx:35 | a missing `ratings` counts as `[]`; otherwise the stored list of numbers is used |
| YourListings.FilteredListings | LenderComponents/YourListings.tsx:40-46 | the filter throws exactly when a query is given and some listing lacks a string name |
| YourListings.FilteredMembership | LenderComponents/YourListings.tsx:41-45 | a listing is shown exactly when it is listed, matches the category (or none is selected) and its name contains the query ignoring case (or there is no query) |
| YourListings.FilteredKeepsOrder | LenderComponents/YourListings.tsx:40 | the shown listings keep the list's order |
| YourListings.FilteredIdempotent | LenderComponents/YourListings.tsx:40-46 | filtering the shown list again gives the same list |
| YourListings.NoFilterShowsAll | LenderComponents/YourListings.tsx:41-44 | no category and no query show every listing |
| YourListings.YourListingsScreen.constructor | LenderComponents/YourListings.tsx:8-10 | no listings, no category, no query |
| YourListings.YourListingsScreen.OnSnapshot | LenderComponents/YourListings.tsx:18-31 | the listings become the user's own, with ids, in snapshot order |
| YourListings.YourListingsScreen.SelectCategory | LenderComponents/YourListings.tsx:97 | only the category changes |
| YourListings.YourListingsScreen.ChangeSearch | LenderComponents/YourListings.tsx:89 | only the query changes |
| YourListings.YourListingsScreen.View | LenderComponents/YourListings.tsx:109-117 | the render throws exactly when the filter does; otherwise it shows "No listings found." exactly when the filter finds nothing |
| LegacyYourListings.LegacyYourListingsScreen.constructor | lendercomponents/YourListings.tsx:7 | no listings |
| LegacyYourListings.LegacyYourListingsScreen.OnSnapshot | lendercomponents/YourListings.tsx:15-28 | the listings become the user's own, with ids, in snapshot order |
| LegacyYourListings.LegacyYourListingsScreen.View | lendercomponents/YourListings.tsx:49-57 | "No listings found." exactly when the user has no listing, else their cards |
| MarketPlace.SearchResult | RenterComponents/MarketPlace.tsx:54-56 | the search throws exactly when some listing lacks a string name |
| MarketPlace.SearchMembership | RenterComponents/MarketPlace.tsx:54-56 | a listing is found exactly when it is listed and its lowercased name contains the lowercased text; results keep their order |
| MarketPlace.ContainsEmpty | RenterComponents/MarketPlace.tsx:55 | every name contains the empty text |
| MarketPlace.EmptySearchShowsAll | RenterComponents/MarketPlace.tsx:54-56 | `handleSearch("")` finds every listing |
| MarketPlace.SearchAgreesWithYourListings | RenterComponents/MarketPlace.tsx:54-56 | a non-empty search finds what the lender screen's search finds with no category |
| MarketPlace.MarketPlaceScreen.constructor | RenterComponents/MarketPlace.tsx:19-21 | no query, no listings, no results |
| MarketPlace.MarketPlaceScreen.OnSnapshot | RenterComponents/MarketPlace.tsx:30-44 | the listings become everyone else's, with ids; the results are reset to all of them |
| MarketPlace.MarketPlaceScreen.HandleSearch | RenterComponents/MarketPlace.tsx:52-59 | the query is recorded; the results are the search over the listings (never over the previous results); when the filter throws they stay as they were |
| ProfileSetting.OwnedNodes | LenderComponents/ProfileSetting.tsx:37-39 | the user's nodes are never more than the snapshot's |
| ProfileSetting.SpreadRatings | LenderComponents/ProfileSetting.tsx:40 | `push(...node.ratings)` succeeds exactly for a list of numbers, and spreads that list |
| ProfileSetting.OwnedRatingsDefined | LenderComponents/ProfileSetting.tsx:37-42 | the ratings can be collected exactly when every owned listing holds a list of numbers |
| ProfileSetting.OwnedNodesAreCollected | LenderComponents/ProfileSetting.tsx:37-39 | the profile's listings are the owner walk's records without `id` |
| ProfileSetting.NewListingKeepsAverage | LenderComponents/ProfileSetting.tsx:40-53 | a new listing with ratings `[0]` leaves the average as it was |
| ProfileSetting.OwnedRatingsStaysUndefined | LenderComponents/ProfileSetting.tsx:37-42 | once the walk has thrown, the whole callback throws |
| ProfileSetting.ProfileScreen.constructor | LenderComponents/ProfileSetting.tsx:8-11 | no profile, loading, average 0, no listings |
| ProfileSetting.ProfileScreen.SignedOut | LenderComponents/ProfileSetting.tsx:61-64 | signed out, only the spinner stops |
| ProfileSetting.ProfileScreen.OnUserInfo | LenderComponents/ProfileSetting.tsx:23-31 | a stored profile replaces the shown one, a missing one leaves it; the spinner stops |
| ProfileSetting.ProfileScreen.OnPostsSnapshot | LenderComponents/ProfileSetting.tsx:33-54 | the loop succeeds exactly when every owned listing's ratings spread; then the listings are the owned nodes and the average is that of the positive ratings or 0; otherwise nothing changes |
| ItemView.Decimal | RenterComponents/ItemView.tsx:82 | a whole number's decimal text is a non-empty digit string |
| ItemView.DecimalRoundTrip | RenterComponents/ItemView.tsx:82 | reading a number's decimal text gives the number back |
| ItemView.StringToNumber | RenterComponents/ItemView.tsx:82 | a blank string converts to 0 |
| ItemView.DurationNumber | RenterComponents/ItemView.tsx:82 | a missing `rentalDuration` compares as NaN |
| ItemView.DurationSuffix | RenterComponents/ItemView.tsx:82 | "days" exactly when `rentalDuration > 1`, else "day" |
| ItemView.TypedDurationSuffix | RenterComponents/ItemView.tsx:82 | a duration typed as a whole number n shows "days" exactly when n > 1 |
| ItemView.Show | RenterComponents/ItemView.tsx:28-100 | renders exactly when the ratings are a list; "Not Rented" and the rent button (to checkout with the same listing) exactly when the listing is available, else "Rented" and the button disabled; 'No ratings yet' exactly when the count is 0; an average is positive |
| ItemView.ShownRatings | RenterComponents/ItemView.tsx:35-50 | missing ratings are `[]`; the count plus the dropped ratings is every rating; the shown average is the positive ratings' average |
| ItemDetail.Show | LenderComponents/ItemDetail.tsx:29-56 | renders exactly when the ratings are a list; "Not Rented" exactly when available; 'No ratings yet' exactly when the count is 0 |
| ItemDetail.AgreesWithItemView | LenderComponents/ItemDetail.tsx:29-40 | the lender sees the status, average and count the renter sees |
| ItemDetail.ShownAverageWithinBounds | LenderComponents/ItemDetail.tsx:35-37 | the shown average lies within the positive ratings' bounds |
| EditProfile.ProfileKey | LenderComponents/EditProfile.tsx:121 | `'userinfo/' + displayName` names the display name's key |
| EditProfile.ProfileDataShape | LenderComponents/EditProfile.tsx:101-107 | the record has exactly username, e-mail (entered or else the account's), picture, the account's uid, and the join date (creation time or else now) |
| EditProfile.UpdateProfileFrame | LenderComponents/EditProfile.tsx:113 | an update writes only its own key, merging into what is there |
| EditProfile.SaveAttempt | LenderComponents/EditProfile.tsx:71-138 | the attempt is refused as blank exactly when the username trims to empty, and for no user exactly when it is not blank and nobody is signed in |
| EditProfile.EditProfileScreen.constructor | LenderComponents/EditProfile.tsx:8-12 | the form holds the given profile and is not uploading |
| EditProfile.EditProfileScreen.HandleUpdateProfile | LenderComponents/EditProfile.tsx:71-138 | outcome, profile tree and account are exactly `SaveAttempt` of the old state; listings and the form are untouched; `uploading` is false after every attempt past validation |
| EditProfile.RefusalsWriteNothing | LenderComponents/EditProfile.tsx:72-97 | a blank, signed-out or taken-username save writes nothing and leaves the account; taken exactly when renaming onto an existing key |
| EditProfile.SavedExactly | LenderComponents/EditProfile.tsx:71-138 | success exactly when valid, signed in, and either renaming onto a free key with every step succeeding or saving in place with the write succeeding |
| EditProfile.RenameMovesProfile | LenderComponents/EditProfile.tsx:110-124 | a rename writes the record under the new key, removes the old key, leaves every other profile, and renames the account |
| EditProfile.RenameKeepsProfileCount | LenderComponents/EditProfile.tsx:110-122 | moving a profile to a free key keeps the number of profiles |
| EditProfile.SaveInPlaceMerges | LenderComponents/EditProfile.tsx:125-129 | an unchanged username merges into the same key; no other key and not the account change |
| EditProfile.NullUsernameLosesProfile | LenderComponents/EditProfile.tsx:110-122 | as written: no display name and the username "null" report success but leave no profile |
| EditProfile.CorrectedSaveAttempt | LenderComponents/EditProfile.tsx:110-122 | the corrected save agrees with the written one for every account with a display name |
| EditProfile.CorrectedSavedProfileIsFound | LenderComponents/EditProfile.tsx:110-122 | corrected: after a successful save the account's display name names a stored profile |
| EditProfile.InterruptedRenameDuplicates | LenderComponents/EditProfile.tsx:112-122 | a rename failing after the write leaves the profile under both keys |
| EditListing.InitialForm | LenderComponents/EditListing.tsx:10-15 | each form field starts as the listing's value (`undefined` when missing) |
| EditListing.EditLiteral | LenderComponents/EditListing.tsx:28-36 | the written literal is the form's fields plus the listing's `userEmail` |
| EditListing.EditedRecordFields | LenderComponents/EditListing.tsx:27-36 | the saved node holds only the form's non-null fields and the owner |
| EditListing.EditKeepsOwner | LenderComponents/EditListing.tsx:33 | the saved node has the listing's owner |
| EditListing.UneditedKeepsValues | LenderComponents/EditListing.tsx:10-15 | saving an untouched form writes the listing's own values back |
| EditListing.EditHidesListing | LenderComponents/EditListing.tsx:27-36 | as written: an available listing comes back "Rented" and without ratings |
| EditListing.CorrectedEditKeepsStatusAndRatings | LenderComponents/EditListing.tsx:27-36 | corrected: a save that does not edit status or ratings keeps both |
| EditListing.EditListingScreen.constructor | LenderComponents/EditListing.tsx:9-15 | the form starts from the listing |
| EditListing.EditListingScreen.Edit | LenderComponents/EditListing.tsx:105-140 | a change handler sets its field only |
| EditListing.EditListingScreen.HandleUpdateListing | LenderComponents/EditListing.tsx:20-43 | nothing is written unless the five fields are filled; then `listings/<id>` becomes the edited record unless `set` fails; nothing else is touched |
| EditListing.EditListingScreen.HandleDeleteListing | LenderComponents/EditListing.tsx:45-64 | deleted exactly when confirmed and the removal succeeds; then exactly `listings/<id>` is gone |
| LegacyEditListing.LegacyEditDropsCategory | lendercomponents/EditListing.tsx:25-33 | the older editor's save drops the category along with status and ratings |
| LegacyEditListing.LegacyEditListingScreen.constructor | lendercomponents/EditListing.tsx:8-13 | the form starts from the listing |
| LegacyEditListing.LegacyEditListingScreen.Edit | lendercomponents/EditListing.tsx:75-94 | a change handler sets its field only |
| LegacyEditListing.LegacyEditListingScreen.HandleUpdateListing | lendercomponents/EditListing.tsx:18-40 | nothing is written unless the four text fields are filled; then `listings/<id>` becomes the edited record unless `set` fails |
| AddListings.NewListingKeys | lendercomponents/AddListings.tsx:49-58 | the new node has the seven typed fields, plus the owner exactly when there is one |
| AddListings.NewListingIsStored | lendercomponents/AddListings.tsx:49-60 | the new node is exactly what `set` stores for `listingData` |
| AddListings.NewListingShowsAsNew | lendercomponents/AddListings.tsx:49-58 | a new listing is available, has ratings `[0]` and no average, belongs exactly to its e-mail, and shows "Not Rented", 'No ratings yet' and an enabled button |
| AddListings.NewListingJoinsOwnList | lendercomponents/AddListings.tsx:46-60 | a pushed listing joins the end of its owner's list and no one else's |
| AddListings.AddListingsScreen.constructor | lendercomponents/AddListings.tsx:9-14 | the form starts cleared, with status `not_yet_rented` |
| AddListings.AddListingsScreen.PickImage | lendercomponents/AddListings.tsx:25-33 | the picked image is set; the text fields stay |
| AddListings.AddListingsScreen.ChangeText | lendercomponents/AddListings.tsx:94-125 | the text fields are set; image and status stay |
| AddListings.AddListingsScreen.HandleAddListing | lendercomponents/AddListings.tsx:36-74 | nothing is written unless the four fields and an image are given; on success the new node goes under the fresh push key, every other listing is unchanged, and the form is cleared; on failure the form keeps its values |
| PaymentCheckout.ImageUri | RenterComponents/PaymentCheckoutScreen.tsx:79-84 | with no truthy image, the stock URL |
| PaymentCheckout.ImageUriRoundTrip | RenterComponents/PaymentCheckoutScreen.tsx:79-84 | a string image is carried unchanged after the data-URI prefix |
| PaymentCheckout.RentedKeepsListing | RenterComponents/PaymentCheckoutScreen.tsx:54 | the rented node has status `rented` (not available, "Rented"), `rentedBy` exactly when the renter has an e-mail, and every other stored field of the listing |
| PaymentCheckout.RentedListingShown | RenterComponents/PaymentCheckoutScreen.tsx:54 | the item screen then shows the rent button disabled, with the same average and count |
| PaymentCheckout.PaymentCheckoutScreen.constructor | RenterComponents/PaymentCheckoutScreen.tsx:9-17 | empty card fields, not loading |
| PaymentCheckout.PaymentCheckoutScreen.ChangeCard | RenterComponents/PaymentCheckoutScreen.tsx:107-133 | the card fields are set; the spinner stays |
| PaymentCheckout.PaymentCheckoutScreen.HandleConfirmPayment | RenterComponents/PaymentCheckoutScreen.tsx:20-76 | with a card field empty nothing is sent, written or toggled; otherwise the request carries `listing.id`, `listing.price`, the card and 'buy'; the listing is marked rented exactly when the payment is accepted, a user is signed in and the write succeeds; nothing else is written; loading is false afterwards |
| GeminiService.HistoryKey | LenderComponents/GeminiService.tsx:21 | every key extends the prefix `chat_history_` |
| GeminiService.HistoryKeysCollide | LenderComponents/GeminiService.tsx:21 | two ids share a key exactly when equal, or one is empty and the other is "default" |
| GeminiService.SaveHistory | LenderComponents/GeminiService.tsx:19-26 | writes the list under the user's key; an error leaves the storage |
| GeminiService.LoadHistory | LenderComponents/GeminiService.tsx:28-37 | the saved list, or `[]` when missing, unparsable or on error |
| GeminiService.ClearHistory | LenderComponents/GeminiService.tsx:39-48 | removes only the user's key and returns true; on error returns false and leaves the storage |
| GeminiService.LoadAfterSave | LenderComponents/GeminiService.tsx:22 | load after save gives back the saved list in order |
| GeminiService.SaveLeavesOtherUsers | LenderComponents/GeminiService.tsx:21-22 | a save leaves every other user's history, except the ids sharing the default key |
| GeminiService.ClearIsIdempotent | LenderComponents/GeminiService.tsx:41-43 | after a clear the history is empty; clearing again changes nothing |
| GeminiService.HistoryLines | LenderComponents/GeminiService.tsx:60-66 | at most one line per history message |
| GeminiService.HistoryLinesSnoc | LenderComponents/GeminiService.tsx:60-66 | one newer message adds at most its own line, at the end |
| GeminiService.BuildPrompt | LenderComponents/GeminiService.tsx:50-75 | the loop and the conditional push build exactly the specified prompt parts, joined by blank lines |
| GeminiService.PromptOpensWithPersona | LenderComponents/GeminiService.tsx:57 | the prompt starts with `System: ` and the persona |
| GeminiService.NewerMessageRendersLast | LenderComponents/GeminiService.tsx:53-66 | history is rendered oldest first: a newer message's line comes after every older line |
| GeminiService.HistoryLinesOfNonBlank | LenderComponents/GeminiService.tsx:60-66 | with no blank message, each message gives exactly its `User: `/`Assistant: ` line, in order |
| GeminiService.UtteranceAppendedUnlessOldestRepeatsIt | LenderComponents/GeminiService.tsx:69-72 | the utterance is appended unless the input's last (oldest) message is a user message with exactly that text |
| GeminiService.TwoTurnLines | LenderComponents/GeminiService.tsx:53-66 | a two-message history renders the older line, then the newer |
| GeminiService.TwoTurnPrompt | LenderComponents/GeminiService.tsx:53-72 | a user/assistant history and a new utterance give the user line, the assistant line, then the utterance |
| GeminiService.SendHistoryLines | LenderComponents/Chatbot.tsx:273-289 | the history passed on a send renders the previous log, then the user's line (the placeholder is blank) |
| GeminiService.SendPromptRepeatsUtterance | LenderComponents/GeminiService.tsx:69-72 | as written: a send's prompt carries the utterance twice whenever the previous log's oldest message is not that same user text |
| GeminiService.PromptPartsOnceEndsWithUtterance | LenderComponents/GeminiService.tsx:69-72 | corrected: the prompt always ends with the utterance |
| GeminiService.PromptPartsOnceOfEndingLines | LenderComponents/GeminiService.tsx:69-72 | corrected: a history already ending with the utterance gets nothing appended |
| GeminiService.SendPromptOnce | LenderComponents/GeminiService.tsx:69-72 | corrected: a send renders the utterance exactly once, after the previous log |
| GeminiService.ReplyText | LenderComponents/GeminiService.tsx:99-105 | the reply, else 'No response' for a missing or empty reply, else the apology on failure; never empty |
| GeminiService.Completion | LenderComponents/GeminiService.tsx:50-107 | sends the built prompt; `onPartial` gets exactly one token, the text returned |
| GeminiService.InitialCompletion | LenderComponents/GeminiService.tsx:110-147 | sends the welcome prompt; the one token and the result are the reply, or the personal fallback greeting on failure |
| GeminiService.WelcomeAddressesUser | LenderComponents/GeminiService.tsx:112-113 | a known name appears as "for <name>" in the prompt and as "Hi <name>!" in the fallback |
| Chatbot.ResolveIdentity | LenderComponents/Chatbot.tsx:166-178 | signed-in user (display name or 'User', uid), else route name (and id or name), else ('Guest', 'guest'); the name is never empty |
| Chatbot.RepairIds | LenderComponents/Chatbot.tsx:201-206 | same length and order, authors and texts kept; an id is kept exactly when it contains '-' (or the fresh one equals it) |
| Chatbot.RepairIdsIdempotent | LenderComponents/Chatbot.tsx:201-206 | repaired ids are valid, and repairing again changes nothing |
| Chatbot.RepairKeepsValidHistory | LenderComponents/Chatbot.tsx:201-206 | a history with valid ids is restored exactly |
| Chatbot.AddMessage | LenderComponents/Chatbot.tsx:232-241 | exactly one message is prepended; the rest keep their order |
| Chatbot.SendPrepend | LenderComponents/Chatbot.tsx:255-269 | the log grows by two: the empty AI placeholder, the user's untrimmed message, then the previous log |
| Chatbot.PatchNewest | LenderComponents/Chatbot.tsx:221-230 | the token is appended to message 0 only when its author is AI; nothing else changes |
| Chatbot.SendThenReply | LenderComponents/Chatbot.tsx:221-269 | after a send and its reply, the placeholder holds the reply and the previous log is untouched |
| Chatbot.SendKeepsIdsDistinct | LenderComponents/Chatbot.tsx:251-252 | two distinct fresh ids keep the log's ids distinct |
| Chatbot.ReloadRestoresLog | LenderComponents/Chatbot.tsx:188-207 | a log saved by the effect reloads exactly |
| Chatbot.ChatScreen.constructor | LenderComponents/Chatbot.tsx:153-158 | empty log and input, loading, not responding, no user |
| Chatbot.ChatScreen.ResolveUser | LenderComponents/Chatbot.tsx:164-179 | the identity slots become the resolved identity; nothing else changes |
| Chatbot.ChatScreen.LoadChatHistory | LenderComponents/Chatbot.tsx:181-219 | with no user id nothing happens; a saved history replaces the log after id repair, otherwise the placeholder is prepended and the welcome starts; loading ends |
| Chatbot.ChatScreen.OnPartialCompletion | LenderComponents/Chatbot.tsx:221-230 | the log is patched; nothing else changes |
| Chatbot.ChatScreen.FinishWelcome | LenderComponents/Chatbot.tsx:211 | the welcome's one token (reply or fallback greeting) is patched into the log |
| Chatbot.ChatScreen.HandleSend | LenderComponents/Chatbot.tsx:244-297 | a blank input or a pending reply changes nothing; otherwise the log becomes the reply, the user's message and the previous log, the input is cleared and the pending flag is false again |
| Chatbot.ChatScreen.SaveEffect | LenderComponents/Chatbot.tsx:188-193 | the log is saved exactly when it is non-empty and the user id is known |
| Chatbot.ChatScreen.ClearHistory | LenderComponents/Chatbot.tsx:299-320 | a confirmed reset clears the stored history (if the storage allows) and leaves only the empty placeholder; cancel changes nothing |
| SimpleChatbot.Decide | lendercomponents/Chatbot.tsx:16-32 | a web search is opened, with the raw input, exactly when the fallback reply is chosen |
| SimpleChatbot.FirstMatch | lendercomponents/Chatbot.tsx:16-27 | the reply is some rule's reply or the fallback |
| SimpleChatbot.DecideFollowsRules | lendercomponents/Chatbot.tsx:16-27 | the reply is the first rule (camera, price, rent, hello/hi) matching the lowercased input, else the fallback |
| SimpleChatbot.DecideIgnoresCase | lendercomponents/Chatbot.tsx:16 | an input and its lowercase form get the same reply |
| SimpleChatbot.SimpleChatScreen.constructor | lendercomponents/Chatbot.tsx:5-8 | the log is the one greeting, and it is well formed |
| SimpleChatbot.SimpleChatScreen.ChangeText | lendercomponents/Chatbot.tsx:52 | the input is set; the log stays |
| SimpleChatbot.SimpleChatScreen.HandleSend | lendercomponents/Chatbot.tsx:10-36 | a blank input changes nothing; otherwise exactly the user line and the reply are appended and the input is cleared; the greeting-then-pairs shape is kept |

## Left out

- HTTP transport (the endpoint calls in GeminiService.tsx and the payment `fetch`): each is an outcome parameter.
- The database and authentication SDKs (`onValue`, `get`, `set`, `update`, `push`, `remove`, `updateProfile`): the trees are maps and snapshots are entry lists. Subscription lifetimes and unsubscribe are not modelled.
- AsyncStorage I/O and JSON text: stored values are message lists or "unparsable". Every stored or passed message is assumed to have a string `text` and a `user` with an `_id`. A message lacking either makes `message.text.trim()` or `message.user._id` throw in LenderComponents/GeminiService.tsx:62-63, and the catch at :101-105 returns the apology text; that path is not modelled. Message creation times are not part of a `Message`, so round trips ignore the Date-to-string change.
- `Date.now`, `Math.random` and `new Date()`: ids and times are parameters. The source's id uniqueness is only probabilistic, so `Chatbot.SendKeepsIdsDistinct` assumes fresh ids.
- `toFixed(1)` and `toLocaleTimeString`: averages are exact reals, and their display is not modelled.
- `toLowerCase` maps only ASCII letters.
- React's batched state updates and stale closures are not modelled; handlers run one after another. `handleSend` in LenderComponents/Chatbot.tsx builds its history from `messages` as captured, which is what `HandleSend` uses.
- `Linking.openURL` and `setTimeout` in the older bot: `HandleSend` returns the search query it would open.
- The older bot's initial reply text is dead (every branch overwrites it) and is not modelled.
- The image pickers are modelled as the picked base64 text only.
- `loadUserData` in EditProfile.tsx (the form's initial values) is not modelled: the constructor takes the values.
- Rendering, styles, navigation, alerts and the UI-only files (App.tsx, the home, settings, tabs, search box, survey and item-card screens, and the renter profile) are not part of this model.
- The persona preamble is a parameter of the prompt functions; `Completion` and `InitialCompletion` pass the service's constant.
- Database paths are plain keys: a username or display name containing `/`, or an empty one, is not given path semantics.
- LenderComponents/ItemDetail.tsx always shows "days" after the duration. That text is not modelled.
- Listing ids are assumed to be string keys (`Listings.HasKey` on the edit and checkout screens). The list screens always hand over such listings.
- `AddListings.AddListingsScreen.HandleAddListing`: requires the push key to be new, which `push` guarantees only probabilistically.
- Async handlers run to completion: a second tap while one is in flight is not modelled.
- `ItemView.StringToNumber`: only digit strings (with white space around) are read as numbers. Signs, decimals, exponents and hexadecimal read as NaN, though JavaScript reads them as numbers.
- `ItemView.DurationNumber`: a list of more than one element compares as NaN. A one-element list is that element.
- `PaymentCheckout.ImageUri`: a non-string truthy image (a number or list in a template literal) gives nothing, because its text form is not modelled.
- `ProfileSetting.SpreadRatings`: only a list of numbers is spread. A string would be spread character by character in JavaScript; it is treated as a throw, like the other non-list values.
- `EditProfile.ProfileKey`: a missing display name is read as the key "null", as string concatenation does. An `undefined` name would give "undefined"; the authentication service reports `null`.
- `Chatbot.RepairIds`: the fresh id is a function of the position, standing in for the generator.

## Findings

| source | as written | input that shows it | evidently intended | confidence | as-written member | corrected member |
|---|---|---|---|---|---|---|
| LenderComponents/GeminiService.tsx:69-72 | the "already included" test looks at element 0 of the reversed history, which is the oldest message | a send with a non-empty previous log whose oldest message is an assistant message: the history renders the utterance and the test appends it again, so the prompt carries it twice | skip the utterance only when the newest rendered line already is it | not executed | GeminiService.SendPromptRepeatsUtterance | GeminiService.SendPromptOnce |
| LenderComponents/EditListing.tsx:27-36 | `set` replaces the whole node with the form's fields and the owner | editing any available listing: `status` and `ratings` are dropped, so the listing shows "Rented", cannot be rented, and loses its ratings | write the form over the listing, keeping the fields not on the form | not executed | EditListing.EditHidesListing | EditListing.CorrectedEditKeepsStatusAndRatings |
| LenderComponents/EditProfile.tsx:110-122 | the rename removes `'userinfo/' + oldUsername` even when the account had no display name | an account with no display name saves the username "null": the profile is written to `userinfo/null`, then `userinfo/null` is removed; the save reports success, the account is renamed, and its profile is gone | with no old display name there is no old profile to remove | not executed | EditProfile.NullUsernameLosesProfile | EditProfile.CorrectedSavedProfileIsFound |
