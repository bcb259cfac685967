# Real-estate browsing site: a verified model of its logic

The site lists eight sample properties. Its pages and components filter, look up and describe them:

- The home page filters the listings by a category id.
- The detail page looks a listing up by the route's id and picks up to three similar listings.
- The filter panel reads its state from the page's query parameters, changes it one key at a time,
  toggles amenities, resets it, and writes it back as query parameters.
- The "list your property" form validates its fields, keeps a list of chosen images and updates its
  amenity checkboxes.
- Each listing card derives a city, a type label, badges and a price text from the record.

The model has one module per source file, plus four support modules: `Wrappers` (an `Option`),
`Sequences` (order-preserving filtering, the `Array.prototype.filter` and `slice` of the pages),
`Text` (JavaScript's `trim` and `split`) and `Numbers`. `Numbers` holds `Number(string)` restricted
to decimal notation, and `Number.prototype.toString` restricted to plain decimal output; there, `None`
stands for `NaN`. Numbers are `real`, so the half bathrooms of the data are exact.

State the source changes in place is modelled imperatively:

- The filter panel is the class `FilterPanel`, whose field `filters` holds the React state. Its
  methods make the replacements `handleFilterChange`, `handleAmenityToggle` and `resetFilters`
  make. `ApplyFilters` builds the query pair by pair, with the conditional `set` calls and then an
  `append` loop, and is proved equal to the function `Encode`.
- The form's image list is the class `ImageUploads`, with a `seq` field.

Everything else is functions and lemmas, as in the source.

## Model

| member | source | states |
|---|---|---|
| Properties.TypeFromName | src/data/properties.ts:13 | a name that parses to a type is that type's name in the union type |
| Properties.TypeNameRoundTrip | src/data/properties.ts:13 | every property type's name parses back to that type |
| Properties.StatusFromName | src/data/properties.ts:14 | a name that parses to a status is that status's name |
| Properties.StatusNameRoundTrip | src/data/properties.ts:14 | every status's name parses back to that status |
| Properties.FilterListings | src/data/properties.ts:23-216 | filtering the sample array by any test keeps exactly the listings that pass, in array order |
| Properties.ListingIds | src/data/properties.ts:25-193 | the sample ids are "1" to "8" in order |
| Properties.IdsDistinct | src/data/properties.ts:25-193 | no two sample listings share an id |
| Properties.AtMostOneWithId | src/data/properties.ts:25-193 | two positions holding the same id are the same position |
| Properties.NoWaterfrontOrMountainView | src/data/properties.ts:38-206 | no listing lists exactly "Waterfront" or "Mountain View"; listing 8 lists "Mountain Views" |
| Sequences.Filter | src/pages/Index.tsx:17 | the result is no longer than the input and every element of it passes the test |
| Sequences.FilterMembers | src/pages/Index.tsx:17 | the result holds only input elements, and every input element that passes |
| Sequences.FilterIsSubsequence | src/pages/Index.tsx:17 | the result is the input with elements deleted and none reordered |
| Sequences.FilterIdempotent | src/pages/Index.tsx:17 | filtering again by the same test changes nothing |
| Sequences.FilterKeepsAll | src/pages/Index.tsx:18 | a test every element passes keeps the whole input |
| Sequences.FilterSameTest | src/pages/Index.tsx:19-22 | tests that agree on every element give the same result |
| Sequences.Take | src/pages/PropertyDetail.tsx:49 | `slice(0, n)` is a prefix of length min(n, length) |
| Sequences.RemoveAll | src/components/PropertyFilters.tsx:76 | no copy of the removed value is left, every other element stays, nothing new appears |
| Sequences.RemoveAllIdempotent | src/components/PropertyFilters.tsx:76 | removing a value twice is removing it once |
| Sequences.RemoveAllAbsent | src/components/PropertyFilters.tsx:76 | removing a value that is not there changes nothing |
| Sequences.RemoveAllAppend | src/components/PropertyFilters.tsx:76-77 | removal distributes over concatenation |
| IndexPage.InCategory | src/pages/Index.tsx:18-23 | defined as the five rules in order: "all" accepts every listing, each other known id its one exact test, and any other id nothing; the lemmas below state each rule's filter |
| IndexPage.FilterByCategory | src/pages/Index.tsx:17-24 | every listing shown passes the category's rule, and no more listings are shown than exist |
| IndexPage.CategoryIsSubsequence | src/pages/Index.tsx:17-24 | the shown listings are the input with some deleted and none reordered, and include every listing the rule accepts |
| IndexPage.AllKeepsEverything | src/pages/Index.tsx:18 | "all" shows the input unchanged |
| IndexPage.CategoryIdempotent | src/pages/Index.tsx:17-24 | filtering the shown listings again by the same category changes nothing |
| IndexPage.BeachfrontIsWaterfront | src/pages/Index.tsx:19 | "beachfront" keeps exactly the listings whose amenities contain exactly "Waterfront" |
| IndexPage.MountainIsMountainView | src/pages/Index.tsx:20 | "mountain" keeps exactly the listings whose amenities contain exactly "Mountain View" |
| IndexPage.ApartmentIsApartmentType | src/pages/Index.tsx:21 | "apartment" keeps exactly the apartment-type listings |
| IndexPage.TrendingIsFeatured | src/pages/Index.tsx:22 | "trending" keeps exactly the featured listings |
| IndexPage.UnknownCategoryIsEmpty | src/pages/Index.tsx:23 | any id other than the five with a rule shows nothing |
| IndexPage.StripOnlyCategoriesAreEmpty | src/components/PropertyCategories.tsx:32-46 | the strip's "countryside", "camping" and "loft" ids show nothing |
| IndexPage.SampleApartments | src/data/properties.ts:63-111 | on the sample data "apartment" shows listings 2 and 4 |
| IndexPage.SampleTrending | src/data/properties.ts:46-214 | on the sample data the featured listings are 1, 2, 5 and 6, in that order |
| IndexPage.SampleBeachfront | src/pages/Index.tsx:19 | on the sample data "beachfront" shows nothing |
| IndexPage.SampleMountain | src/pages/Index.tsx:20 | on the sample data "mountain" shows nothing |
| PropertyDetail.FindIndex | src/pages/PropertyDetail.tsx:45 | the position found holds the id and no earlier position does; with no position, no listing has the id |
| PropertyDetail.Find | src/pages/PropertyDetail.tsx:45 | the listing found has the id and is the first element of the input holding it; nothing is found exactly when no listing has the id |
| PropertyDetail.SimilarProperties | src/pages/PropertyDetail.tsx:48-50 | at most three listings; none when the id is unknown; each has the current type and not the current id |
| PropertyDetail.SimilarIsPrefix | src/pages/PropertyDetail.tsx:49 | the similar listings are the first min(3, n) of the n same-type other listings, in order |
| PropertyDetail.FindListing | src/pages/PropertyDetail.tsx:45 | looking up any sample listing's own id finds that listing |
| PropertyDetail.SimilarToListing1 | src/pages/PropertyDetail.tsx:48-50 | id "1" shows listings 3, 5 and 8 |
| PropertyDetail.SimilarToListing4 | src/pages/PropertyDetail.tsx:48-50 | id "4" shows listing 2 |
| PropertyDetail.SimilarToListing6 | src/pages/PropertyDetail.tsx:48-50 | id "6", the only condo, shows nothing |
| PropertyDetail.SimilarToUnknownId | src/pages/PropertyDetail.tsx:48-50 | any id no sample listing has shows nothing |
| PropertyDetail.SimilarToId9 | src/pages/PropertyDetail.tsx:48-50 | id "9", which no sample listing has, shows nothing |
| Text.TrimStart | src/components/PropertyCard.tsx:55 | a suffix of the input, everything cut is white space, and it does not start with white space |
| Text.TrimEnd | src/components/PropertyCard.tsx:55 | a prefix of the input, everything cut is white space, and it does not end with white space |
| Text.Trim | src/components/PropertyCard.tsx:55 | the result neither starts nor ends with white space |
| Text.TrimSlice | src/components/PropertyCard.tsx:55 | the result is a slice of the input with only white space cut on either side |
| Text.TrimOfTrimmed | src/components/PropertyCard.tsx:55 | trimming a string without surrounding white space changes nothing |
| Text.TrimAfterSpace | src/components/PropertyCard.tsx:55 | trimming the space after a comma gives the trimmed text back |
| Text.Split | src/components/PropertyCard.tsx:55 | at least one piece, and no piece contains the separator |
| Text.JoinSplit | src/components/PropertyCard.tsx:55 | joining the pieces with the separator gives the string back |
| Text.SplitFree | src/components/PropertyCard.tsx:55 | a string without the separator splits into itself alone |
| Text.SplitAfterFree | src/components/PropertyCard.tsx:55 | a separator-free first piece comes off as the first element |
| Text.SplitJoin | src/components/PropertyCard.tsx:55 | splitting a join of separator-free pieces gives the pieces back |
| Text.SplitPieces | src/components/PropertyCard.tsx:55 | a string splits into two or more pieces exactly when it contains the separator |
| Numbers.NatToDigits | src/pages/ListProperty.tsx:62-65 | the digits of a number, at least one and with no leading zero, read back as that number |
| Numbers.ParseNumber | src/components/PropertyFilters.tsx:53-56 | defined as `Number` on decimal text: white space trimmed, blank as 0, an optional sign, else `NaN`; ParseBlank, ParseDigits and ParseRender state its values |
| Numbers.Render | src/components/PropertyFilters.tsx:87-90 | defined as `toString` in plain decimal notation, a minus sign before negative numbers; ParseRender states that `ParseNumber` reads it back |
| Numbers.ParseUnsigned | src/components/PropertyFilters.tsx:53-56 | unsigned decimal notation never reads as a negative number |
| Numbers.ParseRender | src/components/PropertyFilters.tsx:87-90 | a number written with `toString` and read back with `Number` is the same number |
| Numbers.ParseDigits | src/pages/ListProperty.tsx:62-65 | a string of digits reads as its decimal value |
| Numbers.ParseBlank | src/pages/ListProperty.tsx:84-93 | a blank string reads as 0 |
| PropertyFilters.Get | src/components/PropertyFilters.tsx:51-56 | `get` gives the first of the values `getAll` gives, and nothing exactly when there are none |
| PropertyFilters.GetAll | src/components/PropertyFilters.tsx:57 | no more values than pairs |
| PropertyFilters.GetAllEmpty | src/components/PropertyFilters.tsx:57 | a key has no values exactly when no pair is stored under it |
| PropertyFilters.GetAppend | src/components/PropertyFilters.tsx:84-94 | `get` on a concatenation reads the front part first |
| PropertyFilters.GetAllAppend | src/components/PropertyFilters.tsx:84-94 | `getAll` on a concatenation is the front part's values then the back part's |
| PropertyFilters.RemoveKey | src/components/PropertyFilters.tsx:85-90 | no pair under the key is left |
| PropertyFilters.RemoveKeyGet | src/components/PropertyFilters.tsx:85-90 | after removal the key has no values and every other key reads as before |
| PropertyFilters.SetParam | src/components/PropertyFilters.tsx:85-90 | defined as `set`: the first pair under the key takes the value and later ones go, or the pair is appended; SetParamGet and SetParamFresh state its effect |
| PropertyFilters.AppendParam | src/components/PropertyFilters.tsx:93 | `append` keeps every pair and adds the new one last |
| PropertyFilters.SetParamFresh | src/components/PropertyFilters.tsx:85-90 | `set` on a key no pair uses appends the pair |
| PropertyFilters.SetParamGet | src/components/PropertyFilters.tsx:85-90 | after `set` the key has exactly the new value and every other key reads as before |
| PropertyFilters.AmenityParamsGet | src/components/PropertyFilters.tsx:92-94 | the amenity pairs give back the list under "amenities" and nothing under any other key |
| PropertyFilters.TextParam | src/components/PropertyFilters.tsx:51-52 | a present non-empty value is kept; a missing or empty one becomes "all"; the result is never empty |
| PropertyFilters.NumberParam | src/components/PropertyFilters.tsx:53-56 | a missing, non-numeric or zero value becomes the fallback; any other number is kept |
| PropertyFilters.Decode | src/components/PropertyFilters.tsx:50-58 | texts are never empty, the maximum price is never 0, the amenities are every "amenities" value in order, and an empty query gives the defaults |
| PropertyFilters.AmenityParams | src/components/PropertyFilters.tsx:92-94 | one "amenities" pair per amenity, in list order |
| PropertyFilters.Encode | src/components/PropertyFilters.tsx:83-94 | defined as the six conditional scalar pairs in key order followed by one pair per amenity; EncodeReadsBack, EncodeAmenitiesLast and RoundTrip state what it writes |
| PropertyFilters.EncodeReadsBack | src/components/PropertyFilters.tsx:84-94 | each scalar key is present exactly when its field is off its default, with the field's text; the amenities read back as the list |
| PropertyFilters.EncodeAmenitiesLast | src/components/PropertyFilters.tsx:92-94 | the amenity pairs come last, in list order, and no earlier pair uses their key |
| PropertyFilters.DecodeEncode | src/components/PropertyFilters.tsx:50-58 | decoding an encoding gives the state with empty texts as "all", omitted numbers at their defaults, and satisfies the round-trip condition |
| PropertyFilters.ReadNumber | src/components/PropertyFilters.tsx:53-56 | a number written with `toString` reads back as itself unless it is 0 |
| PropertyFilters.RoundTrip | src/components/PropertyFilters.tsx:50-58 | decoding an encoding gives the state back exactly when texts are non-empty, minimum, beds and baths are not negative, and the maximum is neither 0 nor above 5000000 |
| PropertyFilters.DefaultsEncodeEmpty | src/components/PropertyFilters.tsx:99-108 | the reset state encodes to an empty query, and an empty query decodes to it |
| PropertyFilters.Toggle | src/components/PropertyFilters.tsx:74-78 | the toggled amenity's membership flips and every other amenity keeps its membership |
| PropertyFilters.ToggleKeepsOthers | src/components/PropertyFilters.tsx:75-77 | the other amenities keep their order |
| PropertyFilters.ToggleTwiceAbsent | src/components/PropertyFilters.tsx:75-77 | toggling an unlisted amenity twice restores the list |
| PropertyFilters.ToggleTwicePresent | src/components/PropertyFilters.tsx:75-77 | toggling a listed amenity twice leaves one copy of it at the end |
| PropertyFilters.FieldsDetermine | src/components/PropertyFilters.tsx:66 | two states are equal exactly when they agree on every key |
| PropertyFilters.Changed | src/components/PropertyFilters.tsx:66 | defined as the spread update of one key; ChangedField, ChangedTwice and ChangesCommute state its effect |
| PropertyFilters.ChangedField | src/components/PropertyFilters.tsx:66 | a change stores its value under its key and leaves every other key as it was |
| PropertyFilters.ChangedTwice | src/components/PropertyFilters.tsx:66 | a later change to the same key overrides the earlier one |
| PropertyFilters.ChangesCommute | src/components/PropertyFilters.tsx:66 | changes to different keys commute |
| PropertyFilters.FilterPanel.constructor | src/components/PropertyFilters.tsx:50-58 | the state starts as the decoded query |
| PropertyFilters.FilterPanel.ChangeFilter | src/components/PropertyFilters.tsx:65-72 | the new state is the old one changed under one key, and it is what listeners receive |
| PropertyFilters.FilterPanel.ToggleAmenity | src/components/PropertyFilters.tsx:74-80 | only the amenities change, to the toggled list, and listeners receive the new state |
| PropertyFilters.FilterPanel.ResetFilters | src/components/PropertyFilters.tsx:99-108 | the state becomes the defaults |
| PropertyFilters.FilterPanel.ApplyFilters | src/components/PropertyFilters.tsx:82-94 | the parameters built step by step are the encoding of the current state |
| PropertyFilters.SetWhen | src/components/PropertyFilters.tsx:85-90 | a conditional `set` of an unused key appends the pair only when its condition holds |
| PropertyFilters.SetScalars | src/components/PropertyFilters.tsx:85-90 | the six conditional `set` calls give the scalar parameters, in key order, for any texts of the numbers |
| PropertyFilters.AmenityParamsSnoc | src/components/PropertyFilters.tsx:92-94 | one more amenity adds one pair at the end |
| ListProperty.FieldOk | src/pages/ListProperty.tsx:41-70 | defined as one rule per schema field; BlankTextFields, BlankNumberFields, DefaultChoiceFields, YearDigits and EnumFields state its verdicts |
| ListProperty.Errors | src/pages/ListProperty.tsx:41-70 | every field reported fails its rule |
| ListProperty.FieldIndex | src/pages/ListProperty.tsx:41-70 | every field has its place in the schema |
| ListProperty.SchemaSelect | src/pages/ListProperty.tsx:41-70 | selecting fields by a test keeps exactly those that pass, in schema order |
| ListProperty.ErrorsExact | src/pages/ListProperty.tsx:41-70 | a field is reported exactly when it fails, in schema order; the form submits exactly when every field passes |
| ListProperty.DefaultErrors | src/pages/ListProperty.tsx:79-98 | the starting values fail title, description, price, address, city, state, zip code, square feet, year built and the terms, and pass the rest |
| ListProperty.BlankTextFields | src/pages/ListProperty.tsx:42-50 | empty title, description, address, city, state and zip code all fail |
| ListProperty.BlankNumberFields | src/pages/ListProperty.tsx:44-65 | empty price, area and year fail; empty room counts pass |
| ListProperty.DefaultChoiceFields | src/pages/ListProperty.tsx:51-52 | "house" and "for-sale" pass, and unticked terms fail |
| ListProperty.YearDigits | src/pages/ListProperty.tsx:62-65 | a year written as digits passes exactly when 1800 < year <= current year |
| ListProperty.BlankNumbers | src/pages/ListProperty.tsx:44-65 | a blank price, area or year fails, and blank room counts pass |
| ListProperty.EnumFields | src/pages/ListProperty.tsx:51-52 | type and status pass exactly when they are names of the listing's enums |
| ListProperty.CheckAmenity | src/pages/ListProperty.tsx:434-442 | checking appends the amenity; unchecking removes every copy; others keep their membership; a missing list counts as empty |
| ListProperty.CheckTwiceDuplicates | src/pages/ListProperty.tsx:437 | checking twice lists the amenity twice |
| ListProperty.CheckboxIsToggle | src/pages/ListProperty.tsx:434-442 | a click on a checkbox that shows the current state is the filter panel's toggle |
| ListProperty.WithoutIndex | src/pages/ListProperty.tsx:114-116 | one element fewer for an index in range, the same length otherwise |
| ListProperty.WithoutIndexSlices | src/pages/ListProperty.tsx:114-116 | an index in range is cut out with the rest in order; any other index changes nothing |
| ListProperty.Appended | src/pages/ListProperty.tsx:107-112 | the new files follow the selected images in order; with no file list nothing changes |
| ListProperty.AppendedHasNoCap | src/pages/ListProperty.tsx:107-112 | the handler stores eleven images from one pick of eleven files |
| ListProperty.ImageUploads.constructor | src/pages/ListProperty.tsx:76 | no images at first |
| ListProperty.PickWhileOpen | src/pages/ListProperty.tsx:482-488 | a pick of k files made while the inputs are enabled stores fewer than 10 + k images, and the inputs close after it exactly when the total reaches 10 |
| ListProperty.ImageUploads.AddImages | src/pages/ListProperty.tsx:107-112 | the images become the old ones followed by the picked files |
| ListProperty.ImageUploads.RemoveImage | src/pages/ListProperty.tsx:114-116 | exactly the position given is cut out, or nothing for an index out of range |
| PropertyCard.City | src/components/PropertyCard.tsx:55 | no city exactly when the address has no comma; a city never contains a comma |
| PropertyCard.CityOfSegments | src/components/PropertyCard.tsx:55 | the city is the second comma-separated segment of the address, trimmed, for an address with one comma and for one with more |
| PropertyCard.CityOfAddress | src/components/PropertyCard.tsx:55 | an address "street, city,rest" shows the city |
| PropertyCard.SampleCities | src/data/properties.ts:27-195 | the sample listings show Miami, New York, Portland, Chicago, San Francisco, San Diego, Austin and Aspen |
| PropertyCard.TypeLabel | src/components/PropertyCard.tsx:58-60 | "Entire home" for a house, "Entire " and the type's name otherwise |
| PropertyCard.TypeLabelInjective | src/components/PropertyCard.tsx:58-60 | different types get different labels |
| PropertyCard.Badge | src/components/PropertyCard.tsx:30-36 | a badge only on featured listings: "Superhost" for rentals and "Featured" for sales |
| PropertyCard.PriceText | src/components/PropertyCard.tsx:12-16 | "$" and the rendered price, followed by " night" exactly when the listing is for rent |
| PropertyCard.ShowsForSaleBadge | src/components/PropertyCard.tsx:64-66 | defined as the status being for sale; SaleBadgeOrNightly ties it to the price text |
| PropertyCard.SaleBadgeOrNightly | src/components/PropertyCard.tsx:12-16 | the "For Sale" badge shows exactly when the price has no nightly suffix |

## Left out

- Every listing's type being one of house, apartment, condo and townhouse, and its status being for
  sale or for rent, holds by construction: `PropertyType` and `Status` are datatypes with exactly
  those constructors. No separate lemma states it.
- The listing field `type` is named `propertyType`, because `type` is a Dafny keyword. The form's
  `propertyType` and the filter panel's `type` key stay strings, as the source holds them.
- `ParseNumber` covers decimal notation only: an optional sign, digits, and an optional point with
  more digits. JavaScript's `Number` also reads exponents, hexadecimal, binary and octal, and
  "Infinity"; the model reads those as `NaN`. So a price typed as "1e6" or "Infinity" is rejected
  by the model and accepted by the page.
- `Render` writes plain decimal notation only. `toString`'s exponent form for very large or very
  small numbers, and the rounding of binary floating point, are not modelled.
- PropertyFilters.RoundTrip: requires each number to have an exact decimal form of at most 20
  fraction digits (`Writable`), which plain decimal output can write.
- PropertyFilters.DecodeEncode: requires the same condition as RoundTrip.
- Numbers.ParseRender: requires `HasDecimalForm`, an exact decimal form of at most 20 fraction
  digits. `Number(x.toString()) === x` holds for every finite double; the model's numbers are
  reals, and the plain decimal renderer is defined only up to that many places.
- PropertyFilters.ReadNumber: requires `HasDecimalForm`, for the same reason as ParseRender.
- Field lengths count Unicode scalar values. zod's `min` counts UTF-16 code units, so the two differ
  for characters outside the Basic Multilingual Plane.
- Price formatting is left out. The panel's `formatPrice` (src/components/PropertyFilters.tsx:113-118)
  divides by 10^6 or 10^3 and rounds with `toFixed`, which is binary floating point. The card's
  `toLocaleString` (src/components/PropertyCard.tsx:12-16) writes text that depends on the locale.
  `PriceText` takes the rendered price as a parameter.
- The year of the clock (`new Date().getFullYear()`) is the parameter `currentYear`.
- Side effects are not modelled: `navigate`, the toast, `setTimeout`, `URL.createObjectURL` and
  `console.log`. `ApplyFilters` returns the query pairs instead of navigating, and `ResetFilters`
  does not navigate. Serialising the query with `toString` and its percent-encoding are out too.
- React's batching of state updates is not modelled. `handleFilterChange` is a single-key update of
  the current state. No claim is made about the price slider (src/components/PropertyFilters.tsx:212-215),
  which calls it twice from one stale state.
- `handleFilterChange` in the source takes any key and a value of any type. The model takes the
  panel's seven keys, each with a value of its field's type.
- The form's zod and react-hook-form machinery, and the error message texts, are not modelled. Each
  rule is a predicate per field, and `Errors` lists the failing fields in schema order.
- The image list stores abstract files (the type parameter `F`).
- The card's random rating (src/components/PropertyCard.tsx:19) is not modelled: it is
  nondeterministic floating point. The card's link, the image and the favourite button are
  layout only.
- `property.city` is always undefined, because the record has no `city` field; `City` takes the
  address alone.
- `TypeLabel`'s last branch ("anything else") is reached only by a townhouse, since the type has
  four values.
- The detail page's route id can be undefined; the model takes a string, and an id no listing has
  behaves the same way. The detail page's favourite toggle is UI only.
- The header, footer, map and category strip components are layout and are not modelled. The model
  uses only the category strip's ids.
- No code on these pages applies the decoded price, bed or bath filters to the listings. The model
  therefore has no such evaluator.
