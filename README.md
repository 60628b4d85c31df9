# xdeal-api request logic, modelled in Dafny

xdeal-api is an Express/Mongoose backend for vehicle and property
classifieds. This project models the logic that its controllers, two of
its schemas and its upload middleware run before and around their database
calls. The model leaves the database calls abstract.

- **Vehicle and property listings.**
  - The coercion helpers: `escapeRegex`, `parseBool`, `parseNumber` and `pick`.
  - The normalisation of a vehicle request body (`pickListingBody`).
  - The create and update guards, and the whitelists.
  - The translation of a list query into a filter document, a sort, and a
    `skip`/`limit` window. Each controller keeps its own rules:
    - the vehicle search is escaped, the property search is not;
    - a bad vehicle id is a 400, a bad property id is silently dropped;
    - `parseBool` against the exact string `"true"`;
    - no sort allow-list against an allow-list.
- **The two listing schemas, as validity predicates.**
  - Declared types, and `required` (conditional on `listing_type` and on `is_rent`).
  - The `enum` domains, the coords validator, and the defaults.
- **Pagination.**
  - The page/limit clamp and its variant without `|| default` in `myFavorites`.
  - `skip = (page - 1) * limit`.
  - The `{ page, limit, total, pages, hasMore }` envelope, and the page that
    `.skip().limit()` returns.
- **Property categories.** A class over the table of titles:
  - the trimmed title;
  - the duplicate rule of create and update, case-insensitive and exact;
  - the id guards, and the list filter.
- **Notifications and ads.** The create guards, the update patches, the list
  filter, and the envelope.
- **Favourites.** Two classes over the favourites collection, held as the
  sequence of its (user, item) pairs in creation order.
  - The unique index is the class invariant.
  - Add, remove, toggle, check and the lists are methods that keep it.
- **Uploads.**
  - The file filter on `path.extname(originalname)`, lower-cased.
  - The 50 MiB size limit.
  - The destination directory, and the stored file name.

Conventions:
- A request body or document is a map from keys to a `Json` value. A missing
  key is `undefined`.
- The query string is a `map<string, string>`.
- `mongoose.Types.ObjectId.isValid` is the parameter `isId`, left
  uninterpreted.
- The clock and the random number of the upload file name are parameters.
- A handler that checks before it calls storage returns a
  `Step` (`Reject(status, message)` or `Proceed(call)`): the call it would
  make.
- A handler whose outcome depends on the collection is a method of the
  class that holds that collection.

## Model

| member | source | states |
|---|---|---|
| Strings.Trim | controllers/vehicle-listing.controller.js:59-66 | `trim()` gives the slice of the input that starts after its leading white space: no white space at either end, every character of the input outside that slice is white space, and the result is empty exactly when the input is all white space |
| Strings.TrimIdempotent | controllers/vehicle-listing.controller.js:59-66 | trimming a trimmed string changes nothing |
| Strings.TrimLowerCommute | controllers/vehicle-listing.controller.js:11 | lower-casing and trimming commute, so `parseBool` may do them in either order |
| Strings.LowerIdempotent | controllers/vehicle-listing.controller.js:11 | lower-casing a lower-cased string changes nothing |
| Strings.TrimLowerOfPlain | controllers/vehicle-listing.controller.js:11 | a word of lower-case letters, digits and hyphens is unchanged by lower-casing and trimming |
| Strings.NatToStringDigits | controllers/vehicle-listing.controller.js:189-190 | `String(n)` of a natural number is a non-empty string of digits whose value is `n` |
| Strings.ParseIntOfIntToString | controllers/vehicle-listing.controller.js:127-128 | `parseInt(String(n), 10)` is `n` for every integer |
| Strings.NumberOfIntToString | controllers/vehicle-listing.controller.js:19 | `Number(String(n))` is `n` for every integer |
| Strings.IntToStringShape | controllers/vehicle-listing.controller.js:189-190 | `String(n)` is a sign and digits, and is one character long exactly for 0 to 9 |
| Strings.IntToStringParts | controllers/vehicle-listing.controller.js:189-190 | `String(n)` has no surrounding white space, starts with a minus sign exactly when `n` is negative, and after the sign holds the digits of the magnitude |
| Strings.ContainsWitness | middlewares/upload.js:32 | an unanchored match has a position at which the word occurs |
| Patterns.EscapeLength | controllers/vehicle-listing.controller.js:6 | the escape is longer than the input by exactly the number of metacharacters |
| Patterns.EscapeAt | controllers/vehicle-listing.controller.js:6 | at each position, a metacharacter gets exactly one backslash in front and any other character is copied |
| Patterns.EscapePlain | controllers/vehicle-listing.controller.js:6 | text without metacharacters is its own escape |
| Patterns.EscapeAppend | controllers/vehicle-listing.controller.js:6 | escaping works character by character: the escape of a concatenation is the concatenation of the escapes |
| Patterns.UnescapeEscape | controllers/vehicle-listing.controller.js:6 | removing the inserted backslashes recovers the input |
| Patterns.EscapeUnescape | controllers/property-categories.controller.js:5 | every literal pattern is the escape of the text it stands for (the other direction of the round trip) |
| Patterns.EscapeInjective | controllers/property-categories.controller.js:5 | two texts with the same escape are equal |
| Patterns.EscapedPatternMatches | controllers/property-categories.controller.js:14 | the escaped pattern with option "i" matches exactly the texts equal to the input ignoring case when anchored, and the texts containing it when not |
| Filters.SortDirection | controllers/vehicle-listing.controller.js:201 | the direction is always 1 or -1 |
| Filters.SortDirectionAscending | controllers/property-listing.controller.js:113 | the direction is 1 exactly when the value is "asc" ignoring case |
| Filters.SortDirectionCases | controllers/vehicle-listing.controller.js:201 | "ASC" and "aSc" sort ascending; "desc", "" and " asc" (not trimmed) sort descending |
| Filters.SearchOver | controllers/vehicle-listing.controller.js:159 | `$or` holds one alternative per field, in order, all with the same condition |
| Filters.SearchOverEscaped | controllers/vehicle-listing.controller.js:156-160 | the escaped search holds on a document exactly when one of the fields is a string containing the text ignoring case |
| Filters.AnchoredEscaped | controllers/vehicle-listing.controller.js:178-179 | an anchored, escaped pattern holds exactly on the strings equal to the text ignoring case |
| Objects.Picked | controllers/property-listing.controller.js:6-10 | `pick` keeps exactly the named keys that are defined on the object, with their values unchanged |
| Objects.Pick | controllers/property-listing.controller.js:6-10 | the `reduce` loop builds exactly that object |
| Objects.PickedBySet | controllers/notification.controller.js:6-10 | only which keys are named matters, not their order or repetition |
| Objects.PickedSubsumes | controllers/property-listing.controller.js:6-10 | an object whose keys are all named is picked whole |
| Http.RequireValidId | controllers/property-listing.controller.js:144 | 400 "Invalid id" exactly for an id that is not an ObjectId, before any storage call; otherwise the same id goes on |
| Pagination.PageOf | controllers/vehicle-listing.controller.js:127 | the page is at least 1, and is 1 when absent or not numeric |
| Pagination.LimitOf | controllers/vehicle-listing.controller.js:128 | the limit is within [1, 100], and is 20 when absent or not numeric |
| Pagination.SkipOf | controllers/vehicle-listing.controller.js:129 | `skip` is never negative, and is 0 exactly on page 1 |
| Pagination.PageOfPrinted | controllers/vehicle-listing.controller.js:127 | a page written in decimal is kept when at least 1, else it becomes 1 |
| Pagination.LimitOfPrinted | controllers/vehicle-listing.controller.js:128 | a limit written in decimal: 0 becomes 20 (`0 \|\| 20`), a negative one becomes 1, one above 100 becomes 100, one in [1, 100] is kept |
| Pagination.PageNoFallback | controllers/favorite-vehicle.controller.js:90 | the page of `myFavorites`, when numeric, is at least 1 |
| Pagination.LimitNoFallback | controllers/favorite-vehicle.controller.js:91 | the limit of `myFavorites`, when numeric, is within [1, 100] |
| Pagination.LimitClampsAgree | controllers/favorite-vehicle.controller.js:91 | the two limit clamps agree except on a non-empty given limit that reads as 0 (20 against 1) or as NaN |
| Pagination.PageClampsAgree | controllers/favorite-vehicle.controller.js:90 | the two page clamps agree except on a non-empty given page that reads as NaN |
| Pagination.CeilDiv | controllers/property-listing.controller.js:130 | `pages` is the least count of pages of `limit` documents that holds `total` documents |
| Pagination.Paged | controllers/property-listing.controller.js:125-132 | the envelope reports the page, the limit and the total it was given |
| Pagination.HasMoreIffNotLastPage | controllers/notification.controller.js:77-78 | `hasMore` holds exactly when the page is before the last page |
| Pagination.PageWindow | controllers/ads.controller.js:40-43 | `.skip(skip).limit(limit)` returns at most `limit` documents, namely the ones starting at `skip` |
| Pagination.HasMoreIffBeyondWindow | controllers/ads.controller.js:53 | `hasMore` holds exactly when documents remain after the returned page |
| SchemaRules.ApplyDefaults | models/vehicleListing.model.js:11 | each default is applied exactly to a path that is `undefined`; set paths are kept |
| SchemaRules.RemoveOther | models/vehicleListing.model.js:43-134 | removing one path does not change whether another path is set, supplied, of its type, in an enum or a pair of numbers |
| SchemaRules.SetOther | models/vehicleListing.model.js:43-134 | setting one path does not change whether another path is set, supplied, of its type, in an enum or a pair of numbers |
| VehicleListingSchema.DefaultsApplied | models/vehicleListing.model.js:7-12 | a listing without the path gets listing type "vehicle", condition "new", 0 kilometres, 0 views and no images or extra features |
| VehicleListingSchema.ValidListingType | models/vehicleListing.model.js:7-12 | a valid listing is a vehicle or an accessory |
| VehicleListingSchema.VehicleRequiredIff | models/vehicleListing.model.js:43-134 | each vehicle-only path can be left out of a valid listing exactly when it is an accessory |
| VehicleListingSchema.AccessoryTypeRequiredIff | models/vehicleListing.model.js:135-140 | `accessory_type` can be left out of a valid listing exactly when it is a vehicle |
| VehicleListingSchema.AccessoryTypeOptional | models/vehicleListing.model.js:135-140 | a valid vehicle stays valid without `accessory_type` |
| VehicleListingSchema.AccessoryTypeNeeded | models/vehicleListing.model.js:135-140 | an accessory without `accessory_type` is not valid |
| VehicleListingSchema.RemoveOptional | models/vehicleListing.model.js:43-140 | a path that is not always required, and not required by the listing's type, can be left out of a valid listing |
| VehicleListingSchema.AlwaysRequiredNeeded | models/vehicleListing.model.js:5-185 | no listing without one of the `required: true` paths is valid, whatever its type |
| VehicleListingSchema.TypesOkRemove | models/vehicleListing.model.js:5-185 | type checks stay satisfied when a path is removed |
| VehicleListingSchema.SingleFeatureAccepted | models/vehicleListing.model.js:141-158 | a valid listing stays valid when `compatibility` or `extra_features` is one non-empty string instead of an array, which Mongoose wraps into a one-element array |
| VehicleListingSchema.SetOptionalArray | models/vehicleListing.model.js:141-158 | a string-array path outside the conditional, enum and coords rules can take any supplied value that casts to a string array |
| VehicleListingSchema.TypesOkSetArray | models/vehicleListing.model.js:5-185 | type checks stay satisfied when a string-array path takes a value that casts to a string array |
| VehicleListingSchema.FeaturePathIsArrayOnly | models/vehicleListing.model.js:141-158 | `compatibility` and `extra_features` are string-array paths and under no other type, enum, coords or conditional rule |
| VehicleListingSchema.ValidCoords | models/vehicleListing.model.js:35-42 | the coords of a valid listing are an array of exactly two values that cast to numbers |
| VehicleListingSchema.ValidEnums | models/vehicleListing.model.js:59-64 | on a valid listing the condition is new or used and the payment option is cash or installment; a vehicle's fuel type is in the five fuels |
| PropertyListingSchema.DefaultsApplied | models/propertyListing.model.js:78-88 | a listing without the path gets 0 views, the agent type "owner" and no images or extra features; `space` gets no default |
| PropertyListingSchema.RentalPaymentRequiredIff | models/propertyListing.model.js:89-95 | `rental_payment` can be left out of a valid listing exactly when `is_rent` is not true |
| PropertyListingSchema.RentalPaymentOptional | models/propertyListing.model.js:89-95 | a valid listing that is not for rent stays valid without `rental_payment` |
| PropertyListingSchema.AlwaysRequiredNeeded | models/propertyListing.model.js:5-101 | no listing without one of the `required: true` paths is valid |
| PropertyListingSchema.SpaceRequired | models/propertyListing.model.js:49-52 | a document without `space` never validates, since it gets no default |
| PropertyListingSchema.TypesOkRemove | models/propertyListing.model.js:5-101 | type checks stay satisfied when a path is removed |
| PropertyListingSchema.ValidCoords | models/propertyListing.model.js:33-40 | the coords of a valid listing are an array of exactly two values that cast to numbers |
| PropertyListingSchema.ValidEnums | models/propertyListing.model.js:83-95 | on a valid listing the agent is an owner or a middleman, and a rental's payment is daily, monthly or yearly |
| PropertyListingSchema.ValidRooms | models/propertyListing.model.js:41-52 | bedrooms, bathrooms and space are set on a valid listing, to values that cast to numbers |
| VehicleListings.ParseBool | controllers/vehicle-listing.controller.js:8-15 | a boolean passes through; `null` and `undefined` give no value |
| VehicleListings.ParseBoolWords | controllers/vehicle-listing.controller.js:11-14 | a string is true exactly for true/1/yes and false exactly for false/0/no (after lower-casing and trimming), and has no value otherwise |
| VehicleListings.ParseBoolNormalised | controllers/vehicle-listing.controller.js:11 | case and surrounding white space do not change what `parseBool` reads |
| VehicleListings.ParseBoolNumber | controllers/vehicle-listing.controller.js:11-14 | a number reads as true exactly when it is 1 and as false exactly when it is 0, and has no value otherwise |
| VehicleListings.ReadWordOfNumeral | controllers/vehicle-listing.controller.js:12-13 | among numerals only "1" and "0" are words |
| VehicleListings.ParseBoolOfPrinted | controllers/vehicle-listing.controller.js:11-13 | the printed form of a boolean reads back as that boolean |
| VehicleListings.ParseBoolCapitalYes | controllers/vehicle-listing.controller.js:11-12 | "YES" reads as true |
| VehicleListings.ParseBoolCapitalFalse | controllers/vehicle-listing.controller.js:11-13 | "FALSE" reads as false |
| VehicleListings.ParseBoolOtherWord | controllers/vehicle-listing.controller.js:14 | "2" gives no value rather than an error |
| VehicleListings.ParseNumber | controllers/vehicle-listing.controller.js:17-21 | `null`, `undefined` and "" give no value; a number passes through |
| VehicleListings.ParseNumberOfPrinted | controllers/vehicle-listing.controller.js:17-21 | a decimal numeral reads back as its number, and a string of one space reads as 0, as `Number(" ")` does |
| VehicleListings.NumbersOf | controllers/vehicle-listing.controller.js:69-71 | the coords keep their length, each element converted by `Number` |
| VehicleListings.NormalisedBody | controllers/vehicle-listing.controller.js:25-56 | the body keeps exactly the listing keys it defines, and never `listing_type` |
| VehicleListings.TrimmedField | controllers/vehicle-listing.controller.js:59 | one trimming statement trims that field if it is a string, and changes nothing else |
| VehicleListings.TrimmedFieldStep | controllers/vehicle-listing.controller.js:59-66 | each trimming statement adds its own field to the trimmed ones |
| VehicleListings.TrimTextFields | controllers/vehicle-listing.controller.js:59-66 | after the eight statements, exactly the eight text fields that are strings are trimmed |
| VehicleListings.ConvertCoords | controllers/vehicle-listing.controller.js:69-71 | trimming and the coords conversion together give the first pass on every field |
| VehicleListings.ParseFlags | controllers/vehicle-listing.controller.js:74-78 | each of the four flags that `parseBool` reads is replaced by its boolean; every other field is as before |
| VehicleListings.ParseNumbers | controllers/vehicle-listing.controller.js:81-92 | each of the six numeric fields that `parseNumber` reads is replaced by its number; every other field is as before |
| VehicleListings.PickListingBody | controllers/vehicle-listing.controller.js:23-95 | the statement-by-statement body normalisation computes `NormalisedBody` |
| VehicleListings.NormaliseFieldIdempotent | controllers/vehicle-listing.controller.js:59-92 | normalising a field a second time changes nothing |
| VehicleListings.NormalisedBodyIdempotent | controllers/vehicle-listing.controller.js:23-95 | normalising a normalised body changes nothing |
| VehicleListings.CreateCheck | controllers/vehicle-listing.controller.js:102-111 | the checks pass exactly for a truthy name, an images array, a truthy price and description, id category and user, and coords of two finite numbers; a failure is a 400 |
| VehicleListings.CreateVehicleListing | controllers/vehicle-listing.controller.js:97-122 | 400 with the first failing check's message; then the schema decides: a valid document is stored (201) as the normalised body with defaults, and it is a vehicle; a single value for a string-array path and `null` array elements pass the type checks, as Mongoose casts them |
| VehicleListings.BlankNameRefused | controllers/vehicle-listing.controller.js:59 | a name that is blank after trimming is refused with "name is required" |
| VehicleListings.StoredListing | models/vehicleListing.model.js:11 | a stored listing is a vehicle (the body never names the type), with every vehicle field set and coords of two finite numbers |
| VehicleListings.UpdateCheck | controllers/vehicle-listing.controller.js:244-254 | an update passes exactly when each truthy id is an id and given coords are two finite numbers; a failure is a 400 |
| VehicleListings.UpdateVehicleListing | controllers/vehicle-listing.controller.js:236-256 | "Invalid id" first, then the body checks; the update for `id` is the normalised body, which never sets `listing_type` |
| VehicleListings.GetVehicleListings | controllers/vehicle-listing.controller.js:124-202 | exactly a given category or user id that is not an id gives 400, category first, before storage; otherwise the query of `VehicleQuery`: the clamped window, verbatim `sortBy`, and a filter key for exactly the given parameters |
| VehicleListings.VehicleSearchMeaning | controllers/vehicle-listing.controller.js:156-160 | the text search holds exactly when name, description, brand, model or color contains the trimmed `q` ignoring case, metacharacters literal |
| VehicleListings.VehicleBrandMeaning | controllers/vehicle-listing.controller.js:178 | the brand key holds exactly when the brand equals the trimmed parameter ignoring case |
| VehicleListings.KilometresMeaning | controllers/vehicle-listing.controller.js:193-197 | a kilometres key holds exactly when the kilometres are a number within the bounds that parsed |
| VehicleListings.YearBoundsAreText | controllers/vehicle-listing.controller.js:186-191 | year bounds are stored as text: a lower bound 1000 admits the stored text "999", and a stored number 2015 does not meet the lower bound 2010 |
| PropertyListings.CreatePropertyListing | controllers/property-listing.controller.js:12-48 | with a whitelist: 201 and the stored document exactly when the picked body with defaults passes the schema, else 400 |
| PropertyListings.CreateAsWrittenNeverValid | controllers/property-listing.controller.js:14-34 | with the whitelist as written, `space` is never picked and no body passes validation |
| PropertyListings.CorrectedCreateKeepsValidBodies | models/propertyListing.model.js:49-52 | with `space` added, a body of schema paths that passes the schema is picked whole and stored |
| PropertyListings.UpdatePropertyListing | controllers/property-listing.controller.js:161-187 | "Invalid id" exactly for an invalid id; the patch is the whitelisted part of the body and never sets `number_of_views` or `space` |
| PropertyListings.UpdatePatchContents | controllers/property-listing.controller.js:166-185 | the patch keeps each whitelisted body key as given; the whitelist is the schema's paths less `number_of_views` and `space` |
| PropertyListings.RawSearch | controllers/property-listing.controller.js:79-85 | `$or` over name and description with the trimmed, unescaped `q`, exactly when the trimmed `q` is not empty |
| PropertyListings.ValidIdEq | controllers/property-listing.controller.js:87-88 | the key is there exactly for a non-empty value that is an ObjectId, and holds that value untrimmed |
| PropertyListings.ExactFlag | controllers/property-listing.controller.js:90-94 | a flag key is there exactly when given, and true exactly for the string "true" |
| PropertyListings.AgentTypeEq | controllers/property-listing.controller.js:96-98 | `agent_type` is kept exactly when it is owner or middleman |
| PropertyListings.NumberRange | controllers/property-listing.controller.js:101-109 | the range key is there exactly when a bound reads as a number, and merges the bounds that do |
| PropertyListings.SortField | controllers/property-listing.controller.js:111-112 | the sort field is in the allow-list: the request's when that is in it, `createdAt` otherwise |
| PropertyListings.GetPropertyListings | controllers/property-listing.controller.js:51-132 | no parameter is rejected; the query of `PropertyQuery` (clamped window, the requested sort field when it is allowed and `createdAt` otherwise, filter keys) and the envelope for the matching total |
| PropertyListings.FlagWordsAreFalse | controllers/property-listing.controller.js:90-94 | "1", "yes", "TRUE", "True" and "" select listings whose flag is false |
| PropertyListings.InvalidIdDropped | controllers/property-listing.controller.js:87 | a category that is not an id is left out of the filter, not answered with an error |
| PropertyListings.PlainSearchMeaning | controllers/property-listing.controller.js:79-85 | a `q` without metacharacters holds exactly when name or description contains it ignoring case |
| PropertyListings.BedroomsMeaning | controllers/property-listing.controller.js:101-104 | a bedrooms key holds exactly when the bedrooms are a number within the bounds that parsed |
| PropertyListings.EmptyBoundIsZero | controllers/property-listing.controller.js:101 | an empty bound reads as 0, as `Number("")` does |
| PropertyCategories.TitleOf | controllers/property-categories.controller.js:9 | the title is trimmed |
| PropertyCategories.MatchesTitleIff | controllers/property-categories.controller.js:13-15 | the duplicate pattern matches a stored title exactly when it equals the new title ignoring case |
| PropertyCategories.TakenIff | controllers/property-categories.controller.js:73-76 | a title is taken exactly when a category with another id has it ignoring case |
| PropertyCategories.StorePreservesWellFormed | controllers/property-categories.controller.js:79-83 | storing a trimmed, non-empty title that no other category has keeps titles trimmed, non-empty and unique ignoring case |
| PropertyCategories.CategoryTable.Create | controllers/property-categories.controller.js:7-23 | 400 for a blank title, 409 when any title is equal ignoring case, else 201; exactly the trimmed title is added; uniqueness is kept |
| PropertyCategories.CategoryTable.Update | controllers/property-categories.controller.js:64-90 | 400 invalid id, 400 blank, 409 when another category has the title, 404 when absent, else 200 and just that title replaced |
| PropertyCategories.CategoryTable.Delete | controllers/property-categories.controller.js:92-104 | 400 invalid id, 404 absent, else "Deleted" and exactly that category removed |
| PropertyCategories.CategoryTable.GetById | controllers/property-categories.controller.js:50-62 | 400 invalid id, 404 absent, else the category's title |
| PropertyCategories.OwnTitleIsNoConflict | controllers/property-categories.controller.js:73-76 | keeping a category's own title, in any case, is not a conflict |
| PropertyCategories.LongerTitleIsNoConflict | controllers/property-categories.controller.js:14 | "Villas" is not a duplicate of "Villa" |
| PropertyCategories.TitleFilter | controllers/property-categories.controller.js:35-37 | no condition exactly for an empty `q` |
| PropertyCategories.CategoryListQuery | controllers/property-categories.controller.js:27-40 | the clamped page and limit, skip = (page-1)*limit, newest first, the title filter of the trimmed `q` |
| PropertyCategories.ListFilterMeaning | controllers/property-categories.controller.js:35-37 | the filter holds exactly on titles containing the trimmed `q` ignoring case, metacharacters literal; an empty `q` lists everything |
| Notifications.CreateNotification | controllers/notification.controller.js:15-30 | 400 unless title and user_id are truthy, then 400 unless user_id is an id; the document copies title and user_id, and description when defined |
| Notifications.UserFilter | controllers/notification.controller.js:56-61 | a `user_id` key exactly for a non-empty `user_id`, holding it |
| Notifications.GetNotifications | controllers/notification.controller.js:47-79 | 400 "Invalid user_id" exactly for a given one that is not an id; else the user filter, newest first, the clamped window and its envelope |
| Notifications.UserFilterMeaning | controllers/notification.controller.js:55-61 | no user id lists every notification; a user id lists exactly that user's |
| Notifications.UpdateNotification | controllers/notification.controller.js:120-134 | "Invalid id" first, then "Invalid user_id" for a defined user id that is not an id; the patch is the defined title, description and user_id |
| Notifications.PatchContents | controllers/notification.controller.js:128 | the patch holds only title, description and user_id, each as the body gave it, and each one the body defines |
| Ads.CreateAd | controllers/ads.controller.js:9-17 | 400 exactly when title or image is not truthy; else the document holds exactly the title and the image |
| Ads.GetAds | controllers/ads.controller.js:31-53 | no filter, newest first, the clamped window, and the envelope for the count of all ads |
| Ads.AdsPage | controllers/ads.controller.js:39-53 | the page holds at most `limit` ads; `hasMore` says that ads remain after it and that it is not the last page |
| Ads.UpdateAd | controllers/ads.controller.js:92-102 | 400 "Invalid id" exactly for an invalid id; the patch holds title and image exactly when defined, as given |
| FavouriteLog.Without | controllers/favorite-vehicle.controller.js:36-39 | deleting a pair keeps every other pair and removes that one |
| FavouriteLog.WithoutAbsent | controllers/favorite-vehicle.controller.js:41-42 | deleting a pair that is not stored changes nothing |
| FavouriteLog.WithoutTwice | controllers/favorite-vehicle.controller.js:41-42 | a repeated remove is harmless |
| FavouriteLog.WithoutAppend | controllers/favorite-property.controller.js:46-49 | deleting a pair from a longer collection removes it from the older part and the appended pair, if equal |
| FavouriteLog.WithoutDistinct | models/favoriteVehicle.model.js:19 | a delete keeps the unique index |
| FavouriteLog.AppendDistinct | models/favoriteVehicle.model.js:19 | creating a pair that is not stored keeps the unique index |
| FavouriteLog.ToggleFlips | controllers/favorite-vehicle.controller.js:56-64 | a toggle flips the pair's membership, leaves every other pair alone and keeps the index |
| FavouriteLog.ToggleTwice | controllers/favorite-vehicle.controller.js:56-64 | toggling twice stores the same pairs, and exactly the same collection when the pair was absent |
| FavouriteLog.ItemsOfMembers | controllers/favorite-vehicle.controller.js:120-124 | a user's list holds exactly the items of that user's pairs |
| FavouriteLog.ItemsOfAppend | controllers/favorite-vehicle.controller.js:120-122 | a new favourite comes first in its user's list; other users' lists are unchanged |
| FavouriteLog.ItemsOfDistinct | models/favoriteProperty.model.js:19 | under the unique index no item appears twice in a user's list |
| FavouriteVehicles.Request | controllers/favorite-vehicle.controller.js:13-14 | 401 without a caller, checked before 400 without a vehicle id; otherwise the (caller, vehicle) pair |
| FavouriteVehicles.Window | controllers/favorite-vehicle.controller.js:92-98 | with a numeric page and limit, at most `limit` items, those from `skip` on |
| FavouriteVehicles.VehicleFavourites.Add | controllers/favorite-vehicle.controller.js:8-26 | the 401/400 checks; 500 for a vehicle id that is not an id; 200 "Already favorited" with nothing changed for a stored pair; else 201 and the pair inserted; the index kept |
| FavouriteVehicles.VehicleFavourites.Remove | controllers/favorite-vehicle.controller.js:28-46 | after the checks, the pair is absent, the others kept, and `removed` is whether it was stored |
| FavouriteVehicles.VehicleFavourites.Toggle | controllers/favorite-vehicle.controller.js:48-68 | after the checks, the pair's membership flips and `favorited` is the new membership |
| FavouriteVehicles.VehicleFavourites.IsFavorited | controllers/favorite-vehicle.controller.js:70-83 | after the checks, `favorited` is membership of the pair; nothing changes |
| FavouriteVehicles.VehicleFavourites.MyFavorites | controllers/favorite-vehicle.controller.js:85-113 | 401 without a caller; the clamp without fallback; `total` counts the caller's favourites; the items are the window of the caller's list, newest first, and only the caller's |
| FavouriteVehicles.VehicleFavourites.MyFavoriteVehicleIds | controllers/favorite-vehicle.controller.js:115-128 | 401 without a caller; else the caller's vehicle ids, newest first |
| FavouriteVehicles.FavouriteIdsMeaning | controllers/favorite-vehicle.controller.js:120-124 | the id list holds each of the caller's favourite vehicles exactly once, and nothing else |
| FavouriteVehicles.NewestFirst | controllers/favorite-vehicle.controller.js:120-122 | a vehicle just favourited heads the caller's list; nobody else's list changes |
| FavouriteProperties.Ids | controllers/favorite-property.controller.js:13-15 | 400 unless both user_id and property_id are defined ObjectIds; else their pair |
| FavouriteProperties.PropertyFavourites.Add | controllers/favorite-property.controller.js:9-33 | 400; 409 "Already in favorites" with nothing changed for a stored pair; else 201 and the pair inserted; the index kept |
| FavouriteProperties.PropertyFavourites.Remove | controllers/favorite-property.controller.js:38-62 | 400; 404 "Favorite not found" for an absent pair; else the pair deleted and "Removed from favorites" |
| FavouriteProperties.PropertyFavourites.Toggle | controllers/favorite-property.controller.js:67-93 | 400; else membership flips and `isFavorited` is the new membership |
| FavouriteProperties.PropertyFavourites.Check | controllers/favorite-property.controller.js:133-153 | 400 for the query's ids; else whether the pair is stored; nothing changes |
| FavouriteProperties.PropertyFavourites.UserFavourites | controllers/favorite-property.controller.js:98-128 | 400 "Invalid user_id"; else the user's properties newest first, `total` their number |
| FavouriteProperties.AddThenRemove | controllers/favorite-property.controller.js:17-55 | adding then removing a new favourite restores the collection |
| FavouriteProperties.UserFavouritesMeaning | controllers/favorite-property.controller.js:106-121 | the list holds each of the user's properties exactly once; a new favourite comes first |
| Uploads.SizeLimitInBytes | middlewares/upload.js:28 | a file is within the limit exactly when it has at most 52428800 bytes |
| Uploads.LastIndexOf | middlewares/upload.js:31 | the position of the last occurrence, or none when there is none |
| Uploads.StripTrailingSlashes | middlewares/upload.js:31 | a prefix without a final slash, dropping only slashes |
| Uploads.AfterLastSlash | middlewares/upload.js:31 | the last segment: a slash-free suffix |
| Uploads.ExtName | middlewares/upload.js:31 | the extension is empty, or a dot followed by characters that are neither dots nor slashes |
| Uploads.ExtNameOfSegment | middlewares/upload.js:31 | a slash-free name's extension starts at its last dot, except for a leading dot or ".." |
| Uploads.ExtNameFromDot | middlewares/upload.js:31 | a slash-free name that does not begin with a dot has the extension from its last dot on |
| Uploads.ExtNameOfPlain | middlewares/upload.js:31 | a name without dots has no extension |
| Uploads.ExtNameOfLast | middlewares/upload.js:31 | dots before the last one do not matter: the extension of `stem + ext` is `ext` |
| Uploads.ExtNameOfDotFile | middlewares/upload.js:31 | a dot file such as `.png` has no extension |
| Uploads.FileFilter | middlewares/upload.js:29-38 | accepted exactly when the lower-cased extension contains an allowed word; otherwise the error "Invalid File Type" |
| Uploads.Destination | middlewares/upload.js:9-11 | `uploads/` plus the route's type when non-empty, else the body's truthy type, else `misc`; no directory for a non-string type |
| Uploads.FileNameKeepsExtension | middlewares/upload.js:20 | the stored name ends with the original extension, and `path.extname` reads it back |
| Uploads.StoredNameFiltersAlike | middlewares/upload.js:20-32 | the stored name passes the filter exactly when the original does |
| Uploads.AllowedAt | middlewares/upload.js:30-32 | an allowed word at any position of the extension lets it pass (no anchor) |
| Uploads.NotContainsFirst | middlewares/upload.js:32 | a word whose first letter does not occur in the extension does not occur in it |
| Uploads.EmptyRefused | middlewares/upload.js:32-36 | a file without an extension is refused |
| Uploads.ExeRefused | middlewares/upload.js:32-36 | `.exe` is refused |
| Uploads.UpperCaseAndLongerPass | middlewares/upload.js:30-32 | `.PNG` passes, and so does `.pngx` |
| Uploads.FilterJudgesLastExtension | middlewares/upload.js:31-36 | a name is judged by its last extension alone |
| Uploads.FilterIgnoresCase | middlewares/upload.js:31 | the case of the extension does not matter |
| Uploads.DotFileRefused | middlewares/upload.js:31-36 | a dot file such as `.png` is refused |

## Left out

- **Database calls.**
  - `find`, `sort`, `skip`, `limit`, `populate`, `countDocuments`, `findById*`, `exists` and `create` are abstract.
  - List handlers return the query they would send. The matching total is a parameter.
  - `Promise.all` is read as sequential.
- **Handlers whose outcome depends only on a storage call.** These are the get-by-id, delete and
  view-increment handlers of vehicle listings, property listings,
  notifications and ads. Only their id guard is modelled (`Http.RequireValidId`).
  The 404 answers of the corresponding updates are likewise not modelled. Categories,
  whose table is modelled, have all of theirs.
- **Catch paths.** The `500` branches of errors thrown by storage are not modelled, except the
  cast error of a vehicle id that is not an ObjectId.
  - FavouriteVehicles.VehicleFavourites.Add: its 500 message is Mongoose's cast-error text, returned here as "".
- **Casting at write time.**
  - The schema predicates check that a value casts to its
    declared type; they do not replace the value by its cast. For an array
    path this includes a single value, which Mongoose wraps into a
    one-element array, and `null` elements, which it keeps.
  - Ids are compared as the values the request gave.
  - `runValidators` on the update handlers is not modelled: an
    update's storage-side validation is left to storage.
- VehicleListings.CreateVehicleListing: an empty string given for `compatibility` or `extra_features` is read as
  missing, so a required array path given "" fails validation; `[""]`, the array Mongoose would build from it, is
  not modelled. The same holds for the string-array paths of `PropertyListings.CreatePropertyListing`.
- **Undefined values.** `pickListingBody` sets every listing key, some to `undefined`. The model
  omits those keys, which are not stored.
- **Numbers.**
  - Integers only. Fractions, exponents, hexadecimal and `Infinity` read as "not a
    number we represent", the same as `NaN`.
  - `Number.isFinite` holds of every modelled number.
- **Text.**
  - Lower-casing covers ASCII letters only.
  - Regular expressions have a modelled meaning only for
    literal patterns, the output of `escapeRegex`. The property search, which is not escaped, is
    translated but its match is characterised only for text without metacharacters.
  - `$` is read as the end of the text only. MongoDB's `$` also matches just before a final newline. The
    anchored title and brand matches of categories and vehicle listings therefore also accept a stored text
    equal to the pattern followed by one "\n". Such a text cannot come from a create or update, which trim.
- **Filters.** Each filter document is built as one record value, not by successive
  assignments. The assignments are independent, so the result is the same.
- **Vehicle list envelope.** `getVehicleListings` answers `{ items, total, page, limit }` without `pages` or
  `hasMore`, as the source does. The category list likewise has no envelope beyond those fields.
- **FavouriteVehicles.VehicleFavourites.MyFavorites.** When the page or limit reads as `NaN`, the
  window the store would return is left unmodelled (`None`).
- **Authenticated caller.** The caller's id (`req.user?.id || …`) is a string, with "" for none, assumed to be a valid
  ObjectId.
- **Properties.** In property favourites, user and property ids are the JSON values of the request.
- **The race in both toggles, and in category create and update.** Between the lookup and the create or delete,
  another request can interleave. Category create and update likewise look for an equal title and then write, and
  no unique index on the title backs the check, so two concurrent creates of "Villa" can both be stored, which
  breaks the uniqueness `PropertyCategories.CategoryTable` keeps. This is a concurrency concern; the model is
  sequential.
- **Upload side effects.**
  - `mkdirSync`, the disk storage, and the `uploadBase` prefix (`process.cwd()`) are omitted.
  - `path.join`'s normalisation of `..` in a type is omitted.
  - `Date.now()` and `Math.random()` are parameters of `Uploads.FileName`.
- **Uploads.WithinSizeLimit.** It states the limit only; multer's enforcement, which aborts the upload, is not modelled.
- **Other parts of the repository.** Authentication, saved searches, routing, bootstrap, mail and the
  trivial schemas (users, category models, ads, notifications and saved
  searches) are not part of this model. The favourite schemas appear only
  as the uniqueness invariant `FavouriteLog.Distinct`.

## Findings

| source | as written | input that shows it | evidently intended | confidence | as-written member | corrected member |
|---|---|---|---|---|---|---|
| controllers/property-listing.controller.js:14-34 | The create whitelist omits `space`, which models/propertyListing.model.js:49-52 requires without a default. | Any body, for example one that sets every schema path including `space`: the payload loses `space`, validation fails, and the answer is 400. | `space` is picked like the other schema paths, so a valid body is stored. | not executed | PropertyListings.CreateAsWrittenNeverValid | PropertyListings.CorrectedCreateKeepsValidBodies |
