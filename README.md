# CareDriver ride list, modelled in Dafny

CareDriver's "My Rides" screen shows a driver's upcoming trips. `RidesViewModel.loadTrips` asks an
`ApiClient` for the trip feed. On success, `groupTrips` buckets the trips by the calendar day of their
planned start. It builds one `TripGroup` per day, ordered by the day key, each with the day's summed
earnings and a time span. On failure, it hands a fixed user message to `onError`, chosen by the kind
of error. The table view then reads sections and rows through small accessors. These are the day
label, the section total, the row's time span, a riders summary such as "(3 riders - 1 booster)", the
earnings as "$20.00" and the stops as shortened, numbered address lines.

The model has these modules:

- `Models`: the feed's value types (`Trip`, `Passenger`, `PlannedRoute`, `Leg`, `Waypoint`,
  `Location`, `Trips`), a `Date` as whole seconds since 1970, and the app's three date formatters as
  given functions.
- `MockModels`: the debug fixture `Trips.mock`.
- `ApiClients`: `ApiError` and its descriptions, and the three clients' `fetchTrips`. Each is a
  function of what the outside world delivered (the `Environment`).
- `TripGroups`: `TripGroup.init`, its left-fold total, its first/last time span, and `formattedTime`.
- `Grouping`: `Dictionary(grouping:by:)`, `keys.sorted()` and the map to groups. `IsGrouping`
  characterises the result independently: one group per distinct key, keys strictly ascending, each
  group holding exactly the trips with its key in feed order. The proved properties are these:
  - the result is unique;
  - the groups partition the feed, as a multiset, by row count and by earnings;
  - each trip lies in exactly one group;
  - groups follow time when keys do.
- `Text`: the Swift string operations the view model relies on. These are decimal rendering,
  lexicographic `<` on strings, ASCII `lowercased()`, `trimmingCharacters(in: .whitespaces)`, and
  `split(separator:)` / `joined(separator:)`.
- `Presentation`: the cell strings, namely currency, riders summary, address shortening, numbering
  and the time span.
- `RidesFeature`: the `RidesViewModel` class with its `tripGroups` state, and `Load`, the
  specification of one load.
- `Scenarios`: the view model's test scenarios, stated over the fixture.

Two behaviours of the source worth noting:

- **Transport failures.** The live client rethrows a `URLSession` failure as it is, not as
  `ApiError.networkError`. Such a failure therefore reaches the catch-all branch of `loadTrips`
  and reports "Unexpected error: Please try again later.", not the network-error message
  (`RidesFeature.TransportFailureIsUnexpected`).
- **Group time span.** A group's `startsAt`/`endsAt` are its first trip's start and its last trip's
  end in feed order. They are not the minimum and maximum (`TripGroups.StartsAtIsFirstNotEarliest`,
  `TripGroups.EndsAtIsLastNotLatest`).

## Model

| member | source | states |
|---|---|---|
| Models.Boosters | Packages/Sources/MyRidesFeature/RidesViewModel.swift:109 | keeps only passengers with a booster seat, never more than the list holds, and every booster passenger of the list appears |
| Models.BoostersMultiplicity | Packages/Sources/MyRidesFeature/RidesViewModel.swift:109 | each passenger occurs in the filtered list as many times as in the list if it has a booster seat and not at all otherwise, so the result's length is the booster count, duplicates included |
| Models.AbsentUuidIsNotEmpty | Packages/Sources/Models/Models.swift:59-67 | an absent `uuid` is distinct from an empty one |
| MockModels.MockTripsShape | Packages/Sources/Models/MockModels.swift:89-120 | the fixture holds trip1, trip2, trip3 earning 2000, 2500, 1800 cents; trip1 visits waypoints 1 to 5 in order |
| MockModels.MockPassengersOneBooster | Packages/Sources/Models/MockModels.swift:14-32 | each fixture passenger list has three riders, exactly one in a booster seat |
| MockModels.MockRoutesOnConsecutiveDays | Packages/Sources/Models/MockModels.swift:50-87 | the three planned routes start on three consecutive UTC days, in feed order, and the first ends no earlier than it starts |
| ApiClients.ErrorDescription | Packages/Sources/ApiClient/ApiClient.swift:83-92 | a description starts with "Network error: " exactly when the error is a network error |
| ApiClients.DescriptionInitial | Packages/Sources/ApiClient/ApiClient.swift:83-92 | each error's description starts with a letter that tells the case apart |
| ApiClients.ErrorDescriptionInjective | Packages/Sources/ApiClient/ApiClient.swift:83-92 | different errors are described differently; a network error's description determines the underlying error's description |
| ApiClients.LiveFetchTrips | Packages/Sources/ApiClient/ApiClient.swift:22-39 | a transport error is rethrown unwrapped; a non-HTTP or non-200 response is `invalidResponse`; a failed decode is `decodingError` and happens exactly when the response was a 200 and decoding fails; otherwise the decoded trips, whole; never `networkError` |
| ApiClients.RejectedBeforeDecoding | Packages/Sources/ApiClient/ApiClient.swift:25-27 | a rejected response gives the same outcome whatever the decoder |
| ApiClients.MockFetchTrips | Packages/Sources/ApiClient/ApiClient.swift:52-55 | the fixture's three trips, failing only (and not with an `ApiError`) when the sleep is interrupted |
| ApiClients.MockFailingFetchTrips | Packages/Sources/ApiClient/ApiClient.swift:68-70 | always fails with exactly the configured `ApiError` |
| ApiClients.FetchTrips | Packages/Sources/ApiClient/ApiClient.swift:5-10 | each client variant's fetch is the one its implementation defines |
| TripGroups.SumEarnings | Packages/Sources/MyRidesFeature/TripGroup.swift:30 | the empty list sums to 0, and trips that never earn a negative amount sum to a non-negative amount |
| TripGroups.SumEarningsAppend | Packages/Sources/MyRidesFeature/TripGroup.swift:30 | the earnings sum is additive over concatenation |
| TripGroups.SumEarningsSingle | Packages/Sources/MyRidesFeature/TripGroup.swift:30 | a one-trip list sums to that trip's earnings |
| TripGroups.MakeTripGroup | Packages/Sources/MyRidesFeature/TripGroup.swift:27-33 | key and trips are stored as given; a non-empty group totals its trips' earnings and spans first start to last end; an empty one totals 0 and uses the clock reading for both ends |
| TripGroups.SingleTripGroupTotal | Packages/Sources/MyRidesFeature/TripGroup.swift:30 | a one-trip group earns what its trip earns |
| TripGroups.StartsAtIsFirstNotEarliest | Packages/Sources/MyRidesFeature/TripGroup.swift:31 | trips given latest-first make a group whose start is later than one of its trips' start |
| TripGroups.EndsAtIsLastNotLatest | Packages/Sources/MyRidesFeature/TripGroup.swift:32 | a last trip that ends earlier makes a group whose end precedes one of its trips' end |
| TripGroups.FormattedTime | Packages/Sources/MyRidesFeature/TripGroup.swift:17-20 | for a well-formed group, the lower-cased times of the first trip's start and the last trip's end, joined by " - " |
| Text.DigitChar | Packages/Sources/MyRidesFeature/RidesViewModel.swift:111 | the digit character has the given value |
| Text.Decimal | Packages/Sources/MyRidesFeature/RidesViewModel.swift:111 | a non-empty digit string without a leading zero, one digit exactly for values below ten |
| Text.DecimalRoundTrip | Packages/Sources/MyRidesFeature/RidesViewModel.swift:111 | reading the rendered digits back gives the number |
| Text.DecimalInjective | Packages/Sources/MyRidesFeature/RidesViewModel.swift:111 | different counts render differently |
| Text.DecimalOfDigits | Packages/Sources/MyRidesFeature/RidesViewModel.swift:111 | every digit string without a leading zero is the rendering of its own value |
| Text.DigitsValuePositive | Packages/Sources/MyRidesFeature/RidesViewModel.swift:111 | a digit string not starting with 0 denotes a positive number |
| Text.TwoDigits | Packages/Sources/MyRidesFeature/RidesViewModel.swift:92 | two digits whose value is the number (the cents of "%.2f") |
| Text.TwoDigitsOfDigits | Packages/Sources/MyRidesFeature/RidesViewModel.swift:92 | any two digits are the two-digit rendering of their value |
| Text.LessIrreflexive | Packages/Sources/MyRidesFeature/RidesViewModel.swift:59 | string `<` is irreflexive |
| Text.LessTransitive | Packages/Sources/MyRidesFeature/RidesViewModel.swift:59 | string `<` is transitive |
| Text.LessTotal | Packages/Sources/MyRidesFeature/RidesViewModel.swift:59 | any two strings are equal or ordered one way |
| Text.LessAsymmetric | Packages/Sources/MyRidesFeature/RidesViewModel.swift:59 | string `<` is asymmetric |
| Text.LessCommonPrefix | Packages/Sources/MyRidesFeature/RidesViewModel.swift:59 | a common prefix does not change the order |
| Text.Lower | Packages/Sources/MyRidesFeature/RidesViewModel.swift:99-100 | same length; each upper-case letter becomes its lower-case letter (code point plus 32), every other character is unchanged, and no upper-case letter is left |
| Text.LowerIdempotent | Packages/Sources/MyRidesFeature/RidesViewModel.swift:99-100 | lower-casing twice is lower-casing once |
| Text.LowerKeepsLowercase | Packages/Sources/MyRidesFeature/RidesViewModel.swift:99-100 | a string without upper-case letters is unchanged |
| Text.TrimStart | Packages/Sources/MyRidesFeature/RidesViewModel.swift:131 | a suffix whose dropped prefix is all whitespace and which does not start with whitespace |
| Text.TrimEnd | Packages/Sources/MyRidesFeature/RidesViewModel.swift:131 | a prefix whose dropped suffix is all whitespace and which does not end with whitespace |
| Text.Trim | Packages/Sources/MyRidesFeature/RidesViewModel.swift:131 | no longer than the input and trimmed at both ends |
| Text.TrimIsSlice | Packages/Sources/MyRidesFeature/RidesViewModel.swift:131 | the trimmed string is a slice of the input with only whitespace cut on either side |
| Text.TrimIdentity | Packages/Sources/MyRidesFeature/RidesViewModel.swift:131 | trimming a trimmed string changes nothing |
| Text.TrimLeadingSpace | Packages/Sources/MyRidesFeature/RidesViewModel.swift:131 | the space after a comma is removed |
| Text.Pieces | Packages/Sources/MyRidesFeature/RidesViewModel.swift:131 | at least one piece, none containing the separator |
| Text.JoinPieces | Packages/Sources/MyRidesFeature/RidesViewModel.swift:131 | joining the pieces with the separator gives back the string |
| Text.Join | Packages/Sources/MyRidesFeature/RidesViewModel.swift:138 | one part is joined to itself, and a join of parts starts with the first part |
| Text.PiecesWithoutSeparator | Packages/Sources/MyRidesFeature/RidesViewModel.swift:131 | a string without the separator is one piece |
| Text.PiecesAppend | Packages/Sources/MyRidesFeature/RidesViewModel.swift:131 | splitting distributes over a separator occurrence |
| Text.NonEmpty | Packages/Sources/MyRidesFeature/RidesViewModel.swift:131 | keeps only non-empty pieces of the input |
| Text.NonEmptyAppend | Packages/Sources/MyRidesFeature/RidesViewModel.swift:131 | dropping empty pieces distributes over concatenation |
| Text.Split | Packages/Sources/MyRidesFeature/RidesViewModel.swift:131 | `split` drops empty pieces: every piece is non-empty and free of the separator |
| Text.SplitWithoutSeparator | Packages/Sources/MyRidesFeature/RidesViewModel.swift:133 | a non-empty string without the separator splits into itself |
| Text.NonEmptyNoneIff | Packages/Sources/MyRidesFeature/RidesViewModel.swift:133 | dropping empty pieces leaves nothing exactly when every piece is empty |
| Text.PiecesAllEmptyIff | Packages/Sources/MyRidesFeature/RidesViewModel.swift:133 | every piece is empty exactly when the string holds only separators |
| Text.SplitNoneIff | Packages/Sources/MyRidesFeature/RidesViewModel.swift:133 | `split` yields no piece exactly when the string holds only separators |
| Text.SplitLastWord | Packages/Sources/MyRidesFeature/RidesViewModel.swift:133 | a non-empty separator-free word after a separator is the last piece of the split, after the pieces of what precedes it |
| Grouping.Filter | Packages/Sources/MyRidesFeature/RidesViewModel.swift:54-56 | a trip is in a bucket exactly when it is in the feed and has the bucket's key |
| Grouping.FilterAppend | Packages/Sources/MyRidesFeature/RidesViewModel.swift:54-56 | bucketing keeps feed order: it distributes over concatenation |
| Grouping.FilterNonEmpty | Packages/Sources/MyRidesFeature/RidesViewModel.swift:54-56 | a bucket is non-empty exactly for keys some trip has |
| Grouping.Dictionary | Packages/Sources/MyRidesFeature/RidesViewModel.swift:54-56 | `Dictionary(grouping:)` has exactly the trips' keys |
| Grouping.DictionaryIsFilter | Packages/Sources/MyRidesFeature/RidesViewModel.swift:54-56 | `Dictionary(grouping:)` has exactly the trips' keys, each mapped to its non-empty bucket |
| Grouping.LeastExists | Packages/Sources/MyRidesFeature/RidesViewModel.swift:59 | every non-empty key set has a least key |
| Grouping.SortedKeys | Packages/Sources/MyRidesFeature/RidesViewModel.swift:59 | `keys.sorted()` lists every key once, strictly ascending |
| Grouping.SortedKeysSet | Packages/Sources/MyRidesFeature/RidesViewModel.swift:59 | the sorted listing holds exactly the set's keys |
| Grouping.SortedKeysUnique | Packages/Sources/MyRidesFeature/RidesViewModel.swift:59 | any strictly ascending listing of a key set is the sorted one |
| Grouping.BuildGroups | Packages/Sources/MyRidesFeature/RidesViewModel.swift:59-61 | one group per key, in key order, built from that key's bucket |
| Grouping.GroupingEmptyIff | Packages/Sources/MyRidesFeature/RidesViewModel.swift:50-62 | a grouping has no groups exactly when the feed has no trips |
| Grouping.GroupTrips | Packages/Sources/MyRidesFeature/RidesViewModel.swift:50-62 | the result is a grouping of the feed: one well-formed group per distinct key, keys ascending, each holding its bucket |
| Grouping.DateKeys | Packages/Sources/MyRidesFeature/RidesViewModel.swift:59 | the groups' keys, in section order |
| Grouping.GroupingKeys | Packages/Sources/MyRidesFeature/RidesViewModel.swift:59 | any grouping's section keys are the sorted distinct keys of the feed |
| Grouping.GroupingUnique | Packages/Sources/MyRidesFeature/RidesViewModel.swift:50-62 | a feed has exactly one grouping |
| Grouping.WellFormedDetermined | Packages/Sources/MyRidesFeature/TripGroup.swift:27-33 | a well-formed group is determined by its key and trips |
| Grouping.GroupTripsIgnoresClock | Packages/Sources/MyRidesFeature/RidesViewModel.swift:59-61 | the clock fallback of `TripGroup.init` never shows in grouped sections |
| Grouping.OneTripGroups | Packages/Sources/MyRidesFeature/RidesViewModel.swift:59-61 | one single-trip group per trip, in feed order |
| Grouping.FilterOnAscendingKeys | Packages/Sources/MyRidesFeature/RidesViewModel.swift:54-56 | when keys strictly ascend along the feed, each trip's bucket is that trip alone |
| Grouping.KeysOnAscendingKeys | Packages/Sources/MyRidesFeature/RidesViewModel.swift:54-56 | when keys strictly ascend, there are as many keys as trips |
| Grouping.OneTripGroupsIsGrouping | Packages/Sources/MyRidesFeature/RidesViewModel.swift:50-62 | for ascending keys, one single-trip group per trip is a grouping |
| Grouping.OneTripPerDay | Packages/Sources/MyRidesFeature/RidesViewModel.swift:50-62 | a feed with one trip per day, days ascending, is shown one trip per section in feed order |
| Grouping.RestrictSplit | Packages/Sources/MyRidesFeature/RidesViewModel.swift:54-56 | the trips of a key set split, as a multiset, into one key's bucket and the rest |
| Grouping.RestrictSplitSum | Packages/Sources/MyRidesFeature/RidesViewModel.swift:54-56 | and so do their earnings |
| Grouping.FlatFilterIsRestrict | Packages/Sources/MyRidesFeature/RidesViewModel.swift:54-61 | concatenated buckets of distinct keys hold, as a multiset and by earnings, the trips with those keys |
| Grouping.RestrictNone | Packages/Sources/MyRidesFeature/RidesViewModel.swift:54-56 | no keys select no trips |
| Grouping.RestrictAll | Packages/Sources/MyRidesFeature/RidesViewModel.swift:54-56 | all keys select the whole feed |
| Grouping.FlattenIsFlatFilter | Packages/Sources/MyRidesFeature/RidesViewModel.swift:59-61 | reading the sections top to bottom gives the buckets in key order |
| Grouping.RowCountIsFlattenLength | Packages/Sources/MyRidesFeature/RidesViewModel.swift:70-72 | the rows of all sections are the flattened trips |
| Grouping.TotalOfGroupsIsSum | Packages/Sources/MyRidesFeature/TripGroup.swift:30 | the section totals add up to the flattened trips' earnings |
| Grouping.PartitionWithoutLoss | Packages/Sources/MyRidesFeature/RidesViewModel.swift:50-62 | grouping loses and duplicates no trip: same multiset, same row count, same total earnings |
| Grouping.FlattenHoldsTrips | Packages/Sources/MyRidesFeature/RidesViewModel.swift:50-62 | the sections hold the feed's trips as a multiset, with the same earnings |
| Grouping.ExactlyOneGroup | Packages/Sources/MyRidesFeature/RidesViewModel.swift:54-61 | each trip is in some section, and in a section exactly when the section's key is its key |
| Grouping.GroupsInChronologicalOrder | Packages/Sources/MyRidesFeature/RidesViewModel.swift:59 | when the key order follows time on the feed's own trips, every trip of an earlier section starts before every trip of a later one |
| Presentation.Currency | Packages/Sources/MyRidesFeature/RidesViewModel.swift:92 | starts with "$", has a point before the last two characters, and those are the two digits of the amount's cents |
| Presentation.ParseCurrency | Packages/Sources/MyRidesFeature/RidesViewModel.swift:92 | only "$"-prefixed amounts with a point before two cent digits parse; a minus sign is read exactly for a negative amount; a leading zero in the dollars and a minus sign on zero are rejected |
| Presentation.CurrencyRoundTrip | Packages/Sources/MyRidesFeature/RidesViewModel.swift:92 | the rendered amount reads back to the exact number of cents |
| Presentation.CurrencyCanonical | Packages/Sources/MyRidesFeature/RidesViewModel.swift:92 | every string that reads as an amount is that amount's display form, so the display form is canonical |
| Presentation.CurrencyOfParts | Packages/Sources/MyRidesFeature/RidesViewModel.swift:92 | a sign, dollars without a leading zero and two cent digits are the display form of the amount they denote |
| Presentation.CurrencyInjective | Packages/Sources/MyRidesFeature/RidesViewModel.swift:92 | different amounts render differently |
| Presentation.RidersText | Packages/Sources/MyRidesFeature/RidesViewModel.swift:111 | the riders text ends in the plural "s" exactly when the count is not 1 |
| Presentation.BoostersText | Packages/Sources/MyRidesFeature/RidesViewModel.swift:112 | the boosters text ends in the plural "s" exactly when the count is not 1 |
| Presentation.RidersWording | Packages/Sources/MyRidesFeature/RidesViewModel.swift:111 | for every count: its digits, then " rider" for exactly 1 and " riders" otherwise |
| Presentation.BoostersWording | Packages/Sources/MyRidesFeature/RidesViewModel.swift:112 | for every count: its digits, then " booster" for exactly 1 and " boosters" otherwise |
| Presentation.SingleRider | Packages/Sources/MyRidesFeature/RidesViewModel.swift:111-118 | one rider reads "(1 rider)", and with one booster "(1 rider - 1 booster)" |
| Presentation.RidersSummary | Packages/Sources/MyRidesFeature/RidesViewModel.swift:114-118 | the summary is parenthesised |
| Presentation.SummaryMentionsBoostersIff | Packages/Sources/MyRidesFeature/RidesViewModel.swift:114-118 | the boosters part (after " - ") appears exactly when some passenger needs a booster |
| Presentation.RidersTextHasNoDash | Packages/Sources/MyRidesFeature/RidesViewModel.swift:111 | the riders text never contains "-" |
| Presentation.LeadingDigits | Packages/Sources/MyRidesFeature/RidesViewModel.swift:111 | a prefix of the text |
| Presentation.LeadingDigitsOf | Packages/Sources/MyRidesFeature/RidesViewModel.swift:111 | the leading digits of a number followed by a non-digit are that number |
| Presentation.CountReadBack | Packages/Sources/MyRidesFeature/RidesViewModel.swift:111-112 | a count followed by its noun reads back to the count |
| Presentation.RidersTextReadBack | Packages/Sources/MyRidesFeature/RidesViewModel.swift:111 | the rider count can be read back from the riders text |
| Presentation.BoostersTextReadBack | Packages/Sources/MyRidesFeature/RidesViewModel.swift:112 | the booster count can be read back from the boosters text |
| Presentation.SummaryTail | Packages/Sources/MyRidesFeature/RidesViewModel.swift:114-118 | the part after the riders text starts with a non-digit |
| Presentation.SummaryShape | Packages/Sources/MyRidesFeature/RidesViewModel.swift:114-118 | the summary is "(" + riders text + the boosters tail |
| Presentation.SummaryTailInjective | Packages/Sources/MyRidesFeature/RidesViewModel.swift:114-118 | different booster counts give different tails |
| Presentation.RidersTextPrefix | Packages/Sources/MyRidesFeature/RidesViewModel.swift:111 | a riders text followed by a non-digit determines the count and the rest |
| Presentation.RidersSummaryInjective | Packages/Sources/MyRidesFeature/RidesViewModel.swift:108-118 | the summary determines both the rider count and the booster count |
| Presentation.TripRiders | Packages/Sources/MyRidesFeature/RidesViewModel.swift:105-119 | the summary of the trip's passenger count and booster count, boosters never more than riders |
| Presentation.TrimAll | Packages/Sources/MyRidesFeature/RidesViewModel.swift:131 | one component per component, each the input component with its surrounding whitespace trimmed |
| Presentation.LastToken | Packages/Sources/MyRidesFeature/RidesViewModel.swift:133 | the result holds no space; `LastTokenEmptyIff` and `LastTokenAfterSpace` pin it to the word after the last space, or "" for a blank component |
| Presentation.LastTokenEmptyIff | Packages/Sources/MyRidesFeature/RidesViewModel.swift:133 | the fallback "" is taken exactly when the component holds only spaces |
| Presentation.LastTokenAfterSpace | Packages/Sources/MyRidesFeature/RidesViewModel.swift:133 | the non-empty word after the last space is the result, whatever precedes it |
| Presentation.LastTokenOfWord | Packages/Sources/MyRidesFeature/RidesViewModel.swift:133 | a single word is its own last token |
| Presentation.CondenseShape | Packages/Sources/MyRidesFeature/RidesViewModel.swift:132-137 | with three or more components, two fewer: the country is dropped and the city absorbs the last token of "STATE zip", the earlier components untouched; fewer are kept as they are |
| Presentation.ShortenAddress | Packages/Sources/MyRidesFeature/RidesViewModel.swift:131-138 | the in-place edits of the component list give the specified address line |
| Presentation.SplitOneSpace | Packages/Sources/MyRidesFeature/RidesViewModel.swift:133 | "STATE zip" splits into state and zip |
| Presentation.TrimFourSegments | Packages/Sources/MyRidesFeature/RidesViewModel.swift:131 | the four components of a US address lose their leading spaces |
| Presentation.SplitFourSegments | Packages/Sources/MyRidesFeature/RidesViewModel.swift:131 | a "street, city, STATE zip, country" address splits at its commas into four components |
| Presentation.AddressLineLayout | Packages/Sources/MyRidesFeature/RidesViewModel.swift:131-138 | "street, city, STATE zip, country" shortens to "street, city zip" |
| Presentation.CondenseFour | Packages/Sources/MyRidesFeature/RidesViewModel.swift:132-137 | four components become street and "city zip" |
| Presentation.Numbered | Packages/Sources/MyRidesFeature/RidesViewModel.swift:138 | the line starts with the 1-based number, which reads back from the front, followed by ". " and the address line |
| Presentation.NumberedAddresses | Packages/Sources/MyRidesFeature/RidesViewModel.swift:130-139 | one line per waypoint, in route order, numbered from 1, with the shortened address |
| Presentation.TripTime | Packages/Sources/MyRidesFeature/RidesViewModel.swift:96-102 | the trip's start and end times, lower-cased and joined by " - " |
| Presentation.SingleTripHeaderMatchesRow | Packages/Sources/MyRidesFeature/TripGroup.swift:17-20 | a one-trip section's header time equals its row's time |
| RidesFeature.LoadErrorMessage | Packages/Sources/MyRidesFeature/RidesViewModel.swift:26-46 | every message is a sentence ending in ".", and the catch-all message is chosen exactly for an error that is not an `ApiError` |
| RidesFeature.LoadErrorMessageByKind | Packages/Sources/MyRidesFeature/RidesViewModel.swift:26-46 | two failures give the same message exactly when they fall in the same catch clause |
| RidesFeature.MessageLength | Packages/Sources/MyRidesFeature/RidesViewModel.swift:26-46 | the four messages have four different lengths |
| RidesFeature.Load | Packages/Sources/MyRidesFeature/RidesViewModel.swift:19-47 | cancelled: nothing changes and nothing is reported; success: the groups become a grouping of the fetched trips and nothing is reported; failure: the groups stay and the kind's message is reported |
| RidesFeature.SuccessReplacesGroups | Packages/Sources/MyRidesFeature/RidesViewModel.swift:59 | after a successful load the previous sections have no influence |
| RidesFeature.CancelledLoadIsInvisible | Packages/Sources/MyRidesFeature/RidesViewModel.swift:22-24 | a cancelled load followed by another load is indistinguishable from the other load alone |
| RidesFeature.TransportFailureIsUnexpected | Packages/Sources/MyRidesFeature/RidesViewModel.swift:41-46 | a live transport failure keeps the sections and reports "Unexpected error: Please try again later." |
| RidesFeature.InvalidResponseMessage | Packages/Sources/MyRidesFeature/RidesViewModel.swift:31-35 | a failing client with `invalidResponse` keeps the sections and reports the server-error message |
| RidesFeature.RidesViewModel.constructor | Packages/Sources/MyRidesFeature/RidesViewModel.swift:14-16 | no sections before the first load; the client and formatters are kept |
| RidesFeature.RidesViewModel.LoadTrips | Packages/Sources/MyRidesFeature/RidesViewModel.swift:19-47 | for a fixture client whose sleep was interrupted only in a cancelled task, the new sections and the reported message are those `Load` specifies for the client's fetch, and the sections stay a grouping of the last loaded feed |
| RidesFeature.RidesViewModel.GroupTrips | Packages/Sources/MyRidesFeature/RidesViewModel.swift:50-62 | the sections become the grouping of the given trips by the section-group formatter |
| RidesFeature.RidesViewModel.NumberOfSections | Packages/Sources/MyRidesFeature/RidesViewModel.swift:65-67 | one section per group |
| RidesFeature.RidesViewModel.NumberOfRows | Packages/Sources/MyRidesFeature/RidesViewModel.swift:70-72 | one row per trip of the section, never zero after a load |
| RidesFeature.RidesViewModel.TripGroupAt | Packages/Sources/MyRidesFeature/RidesViewModel.swift:75-77 | the section's group, which is well formed and holds exactly the loaded trips with its key |
| RidesFeature.RidesViewModel.TripAt | Packages/Sources/MyRidesFeature/RidesViewModel.swift:80-82 | the row's trip, a loaded trip whose key is the section's key |
| RidesFeature.RidesViewModel.TripDate | Packages/Sources/MyRidesFeature/RidesViewModel.swift:85-87 | the day label of the section's first trip's start |
| RidesFeature.RidesViewModel.TotalEstimatedEarnings | Packages/Sources/MyRidesFeature/RidesViewModel.swift:90-93 | the money form of the sum of the section's trips' earnings |
| RidesFeature.RidesViewModel.TripTime | Packages/Sources/MyRidesFeature/RidesViewModel.swift:96-102 | the row's trip's start and end, lower-cased, joined by " - " |
| RidesFeature.RidesViewModel.TripRiders | Packages/Sources/MyRidesFeature/RidesViewModel.swift:105-119 | the riders summary of the row's passenger and booster counts |
| RidesFeature.RidesViewModel.EstimatedEarnings | Packages/Sources/MyRidesFeature/RidesViewModel.swift:122-125 | the money form of the row's trip's earnings |
| RidesFeature.RidesViewModel.TripAddresses | Packages/Sources/MyRidesFeature/RidesViewModel.swift:128-140 | the loop builds exactly the numbered, shortened address of every waypoint, in route order |
| RidesFeature.RidesViewModel.CardTapped | Packages/Sources/MyRidesFeature/RidesViewModel.swift:143-146 | the trip handed over is the tapped row's trip |
| RidesFeature.SectionsPartitionLoadedTrips | Packages/Sources/MyRidesFeature/RidesViewModel.swift:50-62 | after any loads the sections hold every loaded trip exactly once, with the same row count and total earnings |
| Scenarios.FixtureKeysAscending | Packages/Tests/MyRidesFeatureTests/RidesViewModelTests.swift:29-31 | the fixture's three day keys are in ascending order |
| Scenarios.ThreeDays | Packages/Sources/MyRidesFeature/RidesViewModel.swift:50-62 | three trips on three ascending days become three one-trip sections in that order |
| Scenarios.FixtureIsGrouped | Packages/Tests/MyRidesFeatureTests/RidesViewModelTests.swift:24-32 | the fixture is grouped into sections "2023-11-16", "2023-11-17", "2023-11-18", one trip each |
| Scenarios.FixtureAmounts | Packages/Tests/MyRidesFeatureTests/RidesViewModelTests.swift:34-42 | the fixture's earnings read "$20.00", "$25.00", "$18.00" |
| Scenarios.WholeDollars | Packages/Sources/MyRidesFeature/RidesViewModel.swift:92 | a whole number of dollars is shown with ".00" |
| Scenarios.ThreeRidersOneBooster | Packages/Sources/MyRidesFeature/RidesViewModel.swift:108-118 | three passengers with one booster read "(3 riders - 1 booster)" |
| Scenarios.FixtureRiders | Packages/Tests/MyRidesFeatureTests/RidesViewModelTests.swift:54 | every fixture trip reads "(3 riders - 1 booster)" |
| Scenarios.StopLine | Packages/Sources/MyRidesFeature/RidesViewModel.swift:130-138 | a US address's row reads "n. street, city zip" |
| Scenarios.FiveStops | Packages/Sources/MyRidesFeature/RidesViewModel.swift:130-139 | five waypoints give exactly their five rows |
| Scenarios.FixtureAddresses | Packages/Tests/MyRidesFeatureTests/RidesViewModelTests.swift:56-62 | trip1's five stops read as the five expected numbered lines |
| Scenarios.FixtureTripTime | Packages/Tests/MyRidesFeatureTests/RidesViewModelTests.swift:53 | with the formatter's "1:15p"/"1:40p", trip1's time reads "1:15p - 1:40p" |
| Scenarios.LoadFixture | Packages/Tests/MyRidesFeatureTests/RidesViewModelTests.swift:8-73 | loading the fixture gives 3 sections of 1 row, keys 2023-11-16 to 2023-11-18, totals "$20.00", "$25.00", "$18.00", no error |
| Scenarios.FixtureTripDetails | Packages/Tests/MyRidesFeatureTests/RidesViewModelTests.swift:44-63 | the first row is trip1 with time "1:15p - 1:40p", "(3 riders - 1 booster)", "$20.00" and the five stops |
| Scenarios.LoadFailure | Packages/Tests/MyRidesFeatureTests/RidesViewModelTests.swift:14-21 | a failing client reports "Server error: Received an invalid response." and shows no sections |

## Left out

- The three `DateFormatter`s are not modelled. Their output depends on the device's time zone,
  locale and calendar, so they are given functions. The fixture scenarios take as hypotheses the
  keys "2023-11-16" to "2023-11-18" and the times "1:15p"/"1:40p", as a UTC-5 device shows them.
  `Grouping.GroupsInChronologicalOrder` assumes keys that follow time on the feed's own trips. No
  real "yyyy-MM-dd" formatter guarantees that for all instants: a daylight-saving change at
  midnight and five-digit years both break it.
- JSON decoding (`JSONDecoder` with snake-case keys and ISO-8601 dates) is a given function of the
  response bytes. `Codable` conformance and the serialization tests are not modelled.
- `URLSession`, `Task.sleep`, `async`/`await`, `@MainActor` and `Task.isCancelled` are not modelled.
  The transport's result, whether the fixture client's sleep was interrupted, and whether the task
  was cancelled are parameters. The mock client's delay has no other effect. Because `Task.sleep`
  throws only in a cancelled task and cancellation is never undone,
  `RidesFeature.RidesViewModel.LoadTrips` requires that an interrupted fixture sleep comes with a
  cancelled task.
- `ApiError.networkError` carries the underlying error's `localizedDescription`, a string, not the
  Swift `Error` itself. Two different errors with the same description are one value in the model.
- TripGroups.SumEarnings: does not model the trap of Swift's `Int` addition on overflow in the
  earnings `reduce`; the sum is an unbounded integer.
- Text.Less: compares raw code points. Swift's `String <` on `keys.sorted()` compares by Unicode
  canonical equivalence; the two agree on the ASCII digit-and-dash keys "yyyy-MM-dd" produces.
- `Date()`, the clock reading `TripGroup.init` uses for an empty group, is the parameter `now`.
- Dates are whole seconds since 1970; fractional seconds are not modelled.
- The `Double` arithmetic of `String(format: "%.2f", Double(x) / 100.0)` is not modelled. The model
  renders integer cents exactly: sign, whole dollars, a point and two digits. Rounding by `Double`
  for very large amounts is not modelled.
- `lat`, `lng` and `totalTime` are carried as `real` and never computed on.
- `.whitespaces` is modelled as space and tab, and `lowercased()` as ASCII A–Z. Other Unicode
  whitespace and case mappings are not modelled.
- `onError` and `onCardTapped` are modelled as the message and the trip the methods return. When
  no callback is set, the Swift code drops the value.
- `LiveApiClient.init` and the endpoint URL are carried as data. The network is not modelled.
- The view controller, table cell, section header, confirmation alert, style sheet, scene delegate
  and package manifest are not part of this model.
- Presentation.Condense has no contract of its own. `Presentation.CondenseShape` states its result.
- Presentation.AddressLine is specified through `Presentation.CondenseShape`,
  `Presentation.AddressLineLayout` and `Presentation.ShortenAddress`. It is not proved for addresses
  with other layouts beyond what `CondenseShape` states.
