# MKEToolInterview service layer in Dafny

A model of the storage core of the MKEToolInterview restaurant-review service. It covers:

- **The table.** Restaurants and their reviews live in one DynamoDB table. The partition key is `RestaurantId`. The sort key is `"Summary"` for a restaurant's summary row and `"Review#"` followed by the review's id for a review row.
- **The two service mappers and the attribute-access helper.** They turn `RestaurantSummary` and `RestaurantReview` records into attribute maps and documents, and back.
- **`RestaurantService`.** Create, read, list, update and delete of summary rows.
- **`ReviewService`.** Create, read, list, update and delete of review rows. After every change it recomputes the restaurant's average rating.
- **The web project's stale `RestaurantSummaryMapper`.**

How the model represents the system:

- **The table** is a `Store` object. Its `rows` field is a map from `Key(partition, sort)` to a `Document`, and its methods perform the four writes and reads the services issue:
  - `BatchWritePut` replaces the whole row.
  - `UpdateItem` sets the attributes the document carries and keeps the others. This is DynamoDB's UpdateItem.
  - `DeleteItem` removes a row.
  - `GetItem` reads a row.
- **A document** is a map from attribute name to a tagged value: string, number text, null or list.
- **Searches.** A scan or query returns a `Search` cursor over pages. The services drain its pages with the source's `do … while (!IsDone)` loop. The order in which the table lists the matching rows is left open: a ghost sequence that `Store.Search` picks.
- **Number text and Guid text.**
  - Number text is an abstract `NumberFormat` (a `show` and a `parse` function). Each lemma that needs a rating to survive the trip through text asks for it (`RoundTrips(fmt, x)`).
  - Guids are 32 lower-case hex digits, written in the hyphenated "D" form. Their round trip through text is proved, not assumed.
- **Exceptions and new ids.**
  - An exception the service code itself would throw is an `Err(Fault)` result, such as a null passed to `Guid.Parse` or a null summary dereferenced. Errors DynamoDB would raise on a request it rejects are not modelled (see "Left out").
  - The new ids that `Guid.NewGuid` would draw are parameters.

The `ReviewConsistency` module states the invariant the review service keeps: the summary row's average is the mean of the ratings of the review rows in its partition. It proves that, whatever order the query lists the reviews in, the invariant is preserved by:
- creating a review;
- updating a review;
- deleting a review while another one remains.

Deleting the last review breaks it as written. The corrected `DeleteReviewCorrected` preserves it in every case (see "Findings"). The `Scenarios` module replays some of the service test cases on an empty table:
- the five tests of MKEToolInterview.Test/RestaurantServiceTests.cs:55-199;
- the three average-rating tests of MKEToolInterview.Test/ReviewServiceTests.cs:287-385.

The review tests at ReviewServiceTests.cs:75, :101, :134, :171 and :224 are not replayed. What they check is stated by `Reviews.CreatedReviewIsFound`, `Reviews.ClampedUpdateKeepsRatingInRange`, `Reviews.UpdatedReviewKeepsRating` and `ReviewConsistency.DeleteReviewStep`.

The model keeps two behaviours of the code that a reader might not expect:

- **Updates merge.** `UpdateRestaurant` and `UpdateReview` call `UpdateItemAsync` (RestaurantService.cs:92, ReviewService.cs:103). It merges the document into the row rather than replacing the row.
- **No clamp on update.** `UpdateReview` does not clamp the rating (ReviewService.cs:98-108), although the test at ReviewServiceTests.cs:171-221 expects a rating above 5 to read back as 5.

## Model

| member | source | states |
|---|---|---|
| Guids.ParseGuidText | MKEToolInterview.Service/Mappers/RestaurantSummaryMapper.cs:61 | parsing the text of any Guid gives that Guid back |
| Guids.GuidTextOfParse | MKEToolInterview.Service/Mappers/RestaurantReviewMapper.cs:49-50 | a text that parses is exactly the text of the Guid it parses to |
| Guids.GuidTextHasNoHash | MKEToolInterview.Service/Mappers/RestaurantReviewMapper.cs:42-45 | Guid text never contains `#` and is always well-formed |
| Guids.GuidTextInjective | MKEToolInterview.Service/RestaurantService.cs:30 | two Guids with the same text are the same Guid |
| Guids.ParseGuid | MKEToolInterview.Service/Mappers/RestaurantSummaryMapper.cs:61 | parsing succeeds exactly on well-formed Guid text |
| Text.Split | MKEToolInterview.Service/Mappers/RestaurantReviewMapper.cs:43 | the parts rejoined with the separator give back the input, no part contains the separator, and there is at least one part |
| Text.SplitWithoutSeparator | MKEToolInterview.Service/Mappers/RestaurantReviewMapper.cs:43-45 | a text without the separator splits into itself alone |
| Text.LastSegment | MKEToolInterview.Service/Mappers/RestaurantReviewMapper.cs:45 | the last part of `s + "#" + t` is `t` when `t` has no `#` |
| Conversions.GuidParse | MKEToolInterview.Service/Mappers/RestaurantSummaryMapper.cs:61 | null throws ArgumentNull; success exactly on well-formed text, giving the Guid whose text it is |
| Conversions.DoubleParse | MKEToolInterview.Service/Mappers/RestaurantReviewMapper.cs:51 | null throws ArgumentNull; otherwise succeeds exactly when the number format parses the text, with that value |
| DocumentModel.AccessDocumentAttribute | MKEToolInterview.Service/Helpers/DynamoDBDocumentAccessHelper.cs:10-26 | an absent attribute gives null; a result exactly when the attribute is present and primitive, and then it is the value's text |
| DocumentModel.AccessTextValue | MKEToolInterview.Service/Helpers/DynamoDBDocumentAccessHelper.cs:17-21 | a stored string, or a stored null, reads back as itself |
| DocumentModel.AccessList | MKEToolInterview.Service/Helpers/DynamoDBDocumentAccessHelper.cs:18-22 | a present list attribute reads as null |
| Keys.KeyOf | MKEToolInterview.Service/RestaurantService.cs:72 | an item has a key exactly when both key attributes are strings, and the key holds those strings |
| Keys.SummaryKey | MKEToolInterview.Service/RestaurantService.cs:72 | the key of a restaurant's summary row, `(id, "Summary")`; `SummaryIsNoReviewKey` shows it is no review's key |
| Keys.ReviewSortKey | MKEToolInterview.Service/ReviewService.cs:86 | the sort key `"Review#" + reviewId`; `ReviewMapper.IdOfReviewSortKey` reads the id back from it |
| Keys.ReviewKey | MKEToolInterview.Service/ReviewService.cs:86 | the key of a review row, `(restaurantId, "Review#" + reviewId)`; `ReviewKeyInjective` and `SummaryIsNoReviewKey` state its laws |
| Keys.SummaryIsNoReviewKey | MKEToolInterview.Service/ReviewService.cs:70 | the summary row's key is never a review's key, and `"Summary"` does not start with `"Review#"` |
| Keys.ReviewKeyInjective | MKEToolInterview.Service/ReviewService.cs:86 | in one partition, distinct review ids have distinct rows |
| Table.Put | MKEToolInterview.Service/RestaurantService.cs:37-47 | the batch-write put sets the item's row to the item and leaves every other row as it was |
| Table.Updated | MKEToolInterview.Service/RestaurantService.cs:92 | UpdateItem upserts the row: the document's attributes are set, the row's other attributes kept, and other rows untouched |
| Table.Removed | MKEToolInterview.Service/RestaurantService.cs:98 | deletion removes that key and leaves every other row as it was |
| Table.AttributeRemoved | MKEToolInterview.Service/ReviewService.cs:124-128 | removing an attribute leaves every key in place: the row loses that attribute only, and every other row is kept |
| Table.Selected | MKEToolInterview.Service/RestaurantService.cs:55-56 | the keys a filter selects are exactly the rows' keys that match it |
| Table.RowsAt | MKEToolInterview.Service/RestaurantService.cs:60-64 | the listed documents are the rows at the listed keys, in order |
| Table.Chunk | MKEToolInterview.Service/RestaurantService.cs:58 | the pages of a search concatenate to the matching rows, and there is at least one page |
| Table.FlattenCons | MKEToolInterview.Service/RestaurantService.cs:60-64 | the pages concatenate front to back |
| Table.FlattenSnoc | MKEToolInterview.Service/RestaurantService.cs:63 | draining one more page appends it to the results |
| Table.Store.BatchWritePut | MKEToolInterview.Service/RestaurantService.cs:47 | the rows become `Put(old rows, item)`; every row still carries its own key |
| Table.Store.constructor | MKEToolInterview.Service/RestaurantService.cs:54 | the table starts with no rows, and searches cut their results into pages of the given positive size |
| Table.Store.UpdateItem | MKEToolInterview.Service/RestaurantService.cs:92 | the rows become `Updated(old rows, document)` |
| Table.Store.DeleteItem | MKEToolInterview.Service/RestaurantService.cs:98 | the rows become `Removed(old rows, key)` |
| Table.Store.RemoveAttribute | MKEToolInterview.Service/ReviewService.cs:124-128 | the rows become `AttributeRemoved(old rows, key, name)`; every row still carries its own key |
| Table.Store.GetItem | MKEToolInterview.Service/RestaurantService.cs:72 | the row at the key, or none exactly when there is no such row |
| Table.Store.Search | MKEToolInterview.Service/RestaurantService.cs:58 | a fresh cursor at its first page, whose pages concatenate to the matching rows in some listing order that names each matching key once |
| Table.Search.GetNextSet | MKEToolInterview.Service/RestaurantService.cs:63 | returns the next page and advances, or an empty page once done |
| Table.Search.constructor | MKEToolInterview.Service/RestaurantService.cs:58 | a cursor over the given pages and listing, at its first page |
| Table.Search.IsDone | MKEToolInterview.Service/RestaurantService.cs:64 | the search is done once every page has been returned; the drain loops of `GetAllRestaurants` and `GetAllReviewsForRestaurant` rely on it |
| Table.EnumerationSize | MKEToolInterview.Service/ReviewService.cs:72 | a listing of a key set is as long as the set |
| Table.EnumeratesOne | MKEToolInterview.Test/RestaurantServiceTests.cs:197-198 | the only listing of a single key is that key |
| Table.EnumeratesTwo | MKEToolInterview.Test/ReviewServiceTests.cs:216-218 | a listing of two keys is one of the two orders |
| Table.EnumeratesNone | MKEToolInterview.Test/ReviewServiceTests.cs:281-283 | the listing of no keys is empty |
| Table.ListingsArePermutations | MKEToolInterview.Service/ReviewService.cs:72 | two listings of the same rows are permutations of each other |
| Table.SelectedAfterPut | MKEToolInterview.Service/ReviewService.cs:59 | a put adds its key to a filter's selection exactly when the key matches |
| Table.SelectedAfterUpdate | MKEToolInterview.Service/ReviewService.cs:103 | an update of an existing row leaves every selection unchanged |
| Table.SelectedAfterRemove | MKEToolInterview.Service/ReviewService.cs:113 | a delete takes its key out of every selection |
| Table.PutKeepsKeysAgree | MKEToolInterview.Service/RestaurantService.cs:47 | a put keeps every row stored under the key it carries |
| Table.UpdatedKeepsKeysAgree | MKEToolInterview.Service/RestaurantService.cs:92 | an update keeps every row stored under the key it carries |
| Table.RemovedKeepsKeysAgree | MKEToolInterview.Service/RestaurantService.cs:98 | a delete keeps every row stored under the key it carries |
| Table.AttributeRemovedKeepsKeysAgree | MKEToolInterview.Service/ReviewService.cs:124-128 | removing an attribute other than the two key attributes keeps every row stored under the key it carries |
| SummaryMapper.SummaryAttributes | MKEToolInterview.Service/Mappers/RestaurantSummaryMapper.cs:15-30 | the attribute map is keyed at the restaurant's summary row |
| SummaryMapper.SummaryDocument | MKEToolInterview.Service/Mappers/RestaurantSummaryMapper.cs:32-47 | the document is keyed at the restaurant's summary row |
| SummaryMapper.MapToDynamoAttributes | MKEToolInterview.Service/Mappers/RestaurantSummaryMapper.cs:15-30 | the key-by-key build gives the attribute map |
| SummaryMapper.MapToDynamoDocument | MKEToolInterview.Service/Mappers/RestaurantSummaryMapper.cs:32-47 | the key-by-key build gives the document |
| SummaryMapper.MapAllFromDynamoDocuments | MKEToolInterview.Service/RestaurantService.cs:66 | decoding a list succeeds exactly when every item decodes, giving each item's summary in order |
| SummaryMapper.ReadAverageRating | MKEToolInterview.Service/Mappers/RestaurantSummaryMapper.cs:52-57 | an absent or empty `AverageRating` is null, and any other text is parsed; see `AbsentAverageIsNull` and `RoundTrip` |
| SummaryMapper.MapFromDynamoDocument | MKEToolInterview.Service/Mappers/RestaurantSummaryMapper.cs:49-68 | the decoder: it inverts both encoders (`RoundTrip`), reads only the summary's own attributes (`DecodeReadsOnly`), and gives null for a missing average (`AbsentAverageIsNull`) |
| SummaryMapper.EncodingsFixSortKey | MKEToolInterview.Service/Mappers/RestaurantSummaryMapper.cs:27-44 | both encoders set `SortKey` to `"Summary"` whatever the input |
| SummaryMapper.EncodingsCopyFields | MKEToolInterview.Service/Mappers/RestaurantSummaryMapper.cs:18-39 | `RestaurantId` holds the id's text; the four texts are copied as they are |
| SummaryMapper.EncodingKeySet | MKEToolInterview.Service/Mappers/RestaurantSummaryMapper.cs:15-30 | the key set is exactly the six fixed names, plus `AverageRating` exactly when an average is set |
| SummaryMapper.EncodingsAgree | MKEToolInterview.Service/Mappers/RestaurantSummaryMapper.cs:15-47 | the two encoders agree key for key and text for text; only `AverageRating`'s tag differs (number versus string) |
| SummaryMapper.AbsentAverageIsNull | MKEToolInterview.Service/Mappers/RestaurantSummaryMapper.cs:52-57 | an absent or empty `AverageRating` decodes to null, never to zero |
| SummaryMapper.RoundTrip | MKEToolInterview.Service/Mappers/RestaurantSummaryMapper.cs:15-68 | decoding either encoding gives back all six fields |
| SummaryMapper.DecodeReadsOnly | MKEToolInterview.Service/Mappers/RestaurantSummaryMapper.cs:49-68 | the decoder reads only the summary's own attributes |
| ReviewMapper.ReviewAttributes | MKEToolInterview.Service/Mappers/RestaurantReviewMapper.cs:15-25 | the attribute map is keyed at `(restaurant id, "Review#" + id)` |
| ReviewMapper.ReviewDocument | MKEToolInterview.Service/Mappers/RestaurantReviewMapper.cs:27-37 | the document is keyed at `(restaurant id, "Review#" + id)` |
| ReviewMapper.MapToDynamoAttributes | MKEToolInterview.Service/Mappers/RestaurantReviewMapper.cs:15-25 | the key-by-key build gives the attribute map |
| ReviewMapper.MapToDynamoDocument | MKEToolInterview.Service/Mappers/RestaurantReviewMapper.cs:27-37 | the key-by-key build gives the document |
| ReviewMapper.MapAllFromDynamoDocuments | MKEToolInterview.Service/ReviewService.cs:80 | decoding a list succeeds exactly when every item decodes, giving each item's review in order |
| ReviewMapper.ReviewIdOfSortKey | MKEToolInterview.Service/Mappers/RestaurantReviewMapper.cs:42-45 | the last `#`-separated part of the sort key; see `IdOfReviewSortKey`, `IdOfPlainSortKey` and `MissingAttributesFail` |
| ReviewMapper.MapFromDynamoDocument | MKEToolInterview.Service/Mappers/RestaurantReviewMapper.cs:39-55 | the decoder: it inverts both encoders (`RoundTrip`), reads only the review's attributes (`DecodeReadsOnly`), fails on a missing sort key or rating (`MissingAttributesFail`), and fails on a summary row (`SummaryRowIsNoReview`) |
| ReviewMapper.EncodingShape | MKEToolInterview.Service/Mappers/RestaurantReviewMapper.cs:15-37 | exactly the five keys, `Rating` always present (a number in the map, a string in the document) |
| ReviewMapper.IdOfReviewSortKey | MKEToolInterview.Service/Mappers/RestaurantReviewMapper.cs:42-45 | the id read back from `"Review#" + id` is `id` |
| ReviewMapper.IdOfPlainSortKey | MKEToolInterview.Service/Mappers/RestaurantReviewMapper.cs:43-45 | a sort key without `#` is taken whole as the id |
| ReviewMapper.SummaryRowIsNoReview | MKEToolInterview.Service/Mappers/RestaurantReviewMapper.cs:43-50 | decoding a summary row as a review fails on `Guid.Parse("Summary")` |
| ReviewMapper.MissingAttributesFail | MKEToolInterview.Service/Mappers/RestaurantReviewMapper.cs:42-51 | a missing `SortKey` or `Rating` makes decoding throw; a missing `SortKey` throws a null reference |
| ReviewMapper.RoundTrip | MKEToolInterview.Service/Mappers/RestaurantReviewMapper.cs:15-54 | decoding either encoding gives back all five fields |
| ReviewMapper.DecodeReadsOnly | MKEToolInterview.Service/Mappers/RestaurantReviewMapper.cs:39-55 | the decoder reads only the review's own attributes |
| WebSummaryMapper.MapToDynamoAttributes | MKEToolInterview/Models/RestaurantSummaryMapper.cs:12-27 | the web encoder's output is identical to the service encoder's |
| WebSummaryMapper.Index | MKEToolInterview/Models/RestaurantSummaryMapper.cs:33-36 | indexing succeeds exactly on a present key, else throws KeyNotFound |
| WebSummaryMapper.StringSlot | MKEToolInterview/Models/RestaurantSummaryMapper.cs:33-37 | `AttributeValue.S`: the text exactly when the value is string-tagged, else null |
| WebSummaryMapper.NumberSlot | MKEToolInterview/Models/RestaurantSummaryMapper.cs:38 | `AttributeValue.N`: the text exactly when the value is number-tagged, else null |
| WebSummaryMapper.MapFromDynamoAttributes | MKEToolInterview/Models/RestaurantSummaryMapper.cs:29-40 | the web decoder as written; see `MapFromDynamoAttributesNeverSucceeds`, `WebDecodeOfEncodeFails` and `MissingKeyThrows` |
| WebSummaryMapper.MapFromDynamoAttributesNeverSucceeds | MKEToolInterview/Models/RestaurantSummaryMapper.cs:29-40 | the web decoder throws on every input; on a well-formed one it throws on the null `N` of `RestaurantId` |
| WebSummaryMapper.WebDecodeOfEncodeFails | MKEToolInterview/Models/RestaurantSummaryMapper.cs:38 | decoding the encoder's own output throws |
| WebSummaryMapper.MissingKeyThrows | MKEToolInterview/Models/RestaurantSummaryMapper.cs:33-36 | the first missing attribute of `RestaurantId`, `Name`, `Address` and `Description`, read in that order, throws KeyNotFound for its name |
| WebSummaryMapper.CorrectedRoundTrip | MKEToolInterview/Models/RestaurantSummaryMapper.cs:29-40 | the corrected decoder gives back every field of the encoded summary |
| WebSummaryMapper.MapFromDynamoAttributesCorrected | MKEToolInterview/Models/RestaurantSummaryMapper.cs:29-40 | corrected: `Hours` from `Hours`, and `AverageRating` null when absent, otherwise parsed; `CorrectedRoundTrip` shows it inverts the encoder |
| Ratings.Clamp | MKEToolInterview.Service/ReviewService.cs:45 | the result lies in [0,5]; an in-range rating is kept, a low one becomes 0 and a high one 5 |
| Ratings.ClampIdempotent | MKEToolInterview.Service/ReviewService.cs:45 | clamping twice is clamping once |
| Ratings.RatingsOf | MKEToolInterview.Service/ReviewService.cs:124 | the ratings of the reviews, in order |
| Ratings.MeanAsWritten | MKEToolInterview.Service/ReviewService.cs:124 | sum over count: NaN exactly for no ratings, otherwise a value whose product with the count is the sum |
| Ratings.Mean | MKEToolInterview.Service/ReviewService.cs:124 | none exactly for no ratings; otherwise its product with the count is the sum, and it agrees with the as-written double |
| Ratings.MeanAsWrittenOfNoRatings | MKEToolInterview.Service/ReviewService.cs:124 | with no ratings the source's division gives NaN |
| Ratings.SumBounds | MKEToolInterview.Service/ReviewService.cs:124 | ratings within bounds sum to within count times the bounds |
| Ratings.MeanWithinBounds | MKEToolInterview.Service/ReviewService.cs:124 | the mean of ratings within bounds lies within them |
| Ratings.MeanOfClampedRatings | MKEToolInterview.Service/ReviewService.cs:45-124 | an average of clamped ratings lies in [0,5] |
| Ratings.SumAppend | MKEToolInterview.Service/ReviewService.cs:124 | the sum of a concatenation is the sum of the sums |
| Ratings.SumRemove | MKEToolInterview.Service/ReviewService.cs:113-117 | the sum with one rating removed is the sum minus that rating |
| Ratings.SumPermutation | MKEToolInterview.Service/ReviewService.cs:72-124 | the sum does not depend on the order of the ratings |
| Ratings.MeanPermutation | MKEToolInterview.Service/ReviewService.cs:72-124 | the mean does not depend on the order of the ratings |
| Permutations.Map | MKEToolInterview.Service/ReviewService.cs:80 | mapping keeps the length and applies the function at every index |
| Permutations.RemoveFirst | MKEToolInterview.Service/ReviewService.cs:72 | removing matching elements from two permutations leaves permutations |
| Permutations.MapPermutation | MKEToolInterview.Service/ReviewService.cs:72-80 | mapping keeps permutations permutations |
| Permutations.DistinctOccursOnce | MKEToolInterview.Service/ReviewService.cs:72 | in a listing without repeats, each element occurs once |
| Permutations.DistinctPermutation | MKEToolInterview.Service/ReviewService.cs:72 | two listings of the same elements without repeats are permutations |
| Restaurants.FindRestaurant | MKEToolInterview.Service/RestaurantService.cs:69-82 | none exactly when there is no row at `(id, "Summary")`; a present row gives the decoded summary when it decodes and the decoder's fault when it does not |
| Restaurants.NewRestaurant | MKEToolInterview.Service/RestaurantService.cs:30-33 | the stored summary carries the new id and no average; all else is the caller's |
| Restaurants.RestaurantService.constructor | MKEToolInterview.Service/RestaurantService.cs:22-25 | the service works on the given table and number format |
| Restaurants.RestaurantService.CreateNewRestaurant | MKEToolInterview.Service/RestaurantService.cs:27-50 | returns the new id; the only change is a put of the summary, with no average, at `(newId, "Summary")` |
| Restaurants.RestaurantService.GetAllRestaurants | MKEToolInterview.Service/RestaurantService.cs:52-67 | the drain loop collects all pages; the result decodes the summary rows in the scan's listing order |
| Restaurants.RestaurantService.GetRestaurantById | MKEToolInterview.Service/RestaurantService.cs:69-82 | none exactly when there is no row at `(id, "Summary")`; a present row gives its decoded summary, or the decoder's fault |
| Restaurants.RestaurantService.UpdateRestaurant | MKEToolInterview.Service/RestaurantService.cs:84-93 | the only change is an update that merges the summary's document into its row |
| Restaurants.RestaurantService.DeleteRestaurant | MKEToolInterview.Service/RestaurantService.cs:95-101 | the only change is the removal of `(id, "Summary")` |
| Restaurants.FoundRestaurantHasItsId | MKEToolInterview.Service/RestaurantService.cs:69-82 | a restaurant found under `id` carries exactly that id |
| Restaurants.CreatedRestaurantIsFound | MKEToolInterview.Service/RestaurantService.cs:27-82 | after a create, reading the new id gives the created summary |
| Restaurants.ListedRestaurantsAreTheSummaryRows | MKEToolInterview.Service/RestaurantService.cs:52-67 | one listed restaurant per summary row; each is found under its own id and came from its own summary row |
| Restaurants.UpdateWithAverageIsFound | MKEToolInterview.Service/RestaurantService.cs:84-93 | an update carrying an average reads back as exactly the update |
| Restaurants.UpdateWithoutAverageKeepsStored | MKEToolInterview.Service/RestaurantService.cs:84-93 | an update without an average keeps the stored `AverageRating` attribute, and reads back with the stored average |
| Restaurants.DeleteRestaurantKeepsReviews | MKEToolInterview.Service/RestaurantService.cs:95-101 | after a delete the restaurant is not found, and its review rows are all still there |
| Reviews.FindReview | MKEToolInterview.Service/ReviewService.cs:83-96 | none exactly when there is no row at `(restaurantId, "Review#" + reviewId)`; a present row gives the decoded review when it decodes and the decoder's fault when it does not |
| Reviews.NewReview | MKEToolInterview.Service/ReviewService.cs:39-45 | the stored review takes the restaurant id argument and the new id, a rating clamped to [0,5], and the caller's user and text |
| Reviews.ReviewService.constructor | MKEToolInterview.Service/ReviewService.cs:20-24 | the service works on the restaurant service's table and number format |
| Reviews.ReviewService.CreateNewReview | MKEToolInterview.Service/ReviewService.cs:26-64 | a missing restaurant gives none and writes nothing; otherwise the clamped review is put, the average recomputed, and the new id returned |
| Reviews.ReviewService.GetAllReviewsForRestaurant | MKEToolInterview.Service/ReviewService.cs:66-81 | the drain loop collects all pages; the result decodes the restaurant's `"Review#"` rows in the query's listing order |
| Reviews.ReviewService.GetReviewById | MKEToolInterview.Service/ReviewService.cs:83-96 | none exactly when there is no row at `(restaurantId, "Review#" + reviewId)`; a present row gives its decoded review, or the decoder's fault |
| Reviews.ReviewService.UpdateReview | MKEToolInterview.Service/ReviewService.cs:98-108 | the review's document is merged in, rating as given, and then the average of its restaurant is recomputed |
| Reviews.ReviewService.UpdateReviewClamped | MKEToolInterview.Service/ReviewService.cs:98-108 | as `UpdateReview`, with the rating clamped to [0,5] first |
| Reviews.ReviewService.DeleteReview | MKEToolInterview.Service/ReviewService.cs:110-118 | the review row is removed, and then the restaurant's average is recomputed |
| Reviews.ReviewService.UpdateAverageRatingOnRestaurant | MKEToolInterview.Service/ReviewService.cs:120-129 | lists the restaurant's reviews and writes their mean to its summary row, or throws on a null summary |
| Reviews.ReviewService.DeleteReviewCorrected | MKEToolInterview.Service/ReviewService.cs:110-118 | corrected: deletes the review row, then recomputes with the empty case corrected |
| Reviews.ReviewService.UpdateAverageRatingCorrected | MKEToolInterview.Service/ReviewService.cs:120-129 | corrected: as `UpdateAverageRatingOnRestaurant`, and with no reviews listed it also removes the stored `AverageRating` |
| Reviews.Recompute | MKEToolInterview.Service/ReviewService.cs:120-129 | the as-written recompute on the rows: a null summary throws, otherwise the listed reviews' mean is merged into the summary row; see `RecomputeTouchesOnlySummary`, `RecomputeWritesMean`, `RecomputeWithNoReviewsKeepsAverage` and `AverageIndependentOfOrder` |
| Reviews.RecomputeCorrected | MKEToolInterview.Service/ReviewService.cs:120-129 | corrected: as `Recompute`, and with no reviews listed the stored `AverageRating` is removed; see `RecomputeCorrectedClearsAverage` and `ReviewConsistency.RecomputeCorrectedStep` |
| Reviews.RecomputeTouchesOnlySummary | MKEToolInterview.Service/ReviewService.cs:120-129 | the recompute changes no row but the summary row |
| Reviews.RecomputeKeepsReviews | MKEToolInterview.Service/ReviewService.cs:120-129 | every review reads back the same after the recompute |
| Reviews.RecomputeWritesMean | MKEToolInterview.Service/ReviewService.cs:124-128 | with reviews listed, the summary then reads back with average sum/count |
| Reviews.RecomputeWithNoReviewsKeepsAverage | MKEToolInterview.Service/ReviewService.cs:124-128 | with no reviews left, the stored `AverageRating` attribute is kept as it was, because the document omits a null average and the update merges |
| Reviews.RecomputeCorrectedClearsAverage | MKEToolInterview.Service/ReviewService.cs:124-128 | corrected: with no reviews listed, the summary row has no `AverageRating`, and the restaurant reads back with every field kept and no average |
| Reviews.ListedRatings | MKEToolInterview.Service/ReviewService.cs:80-124 | the listed ratings are the ratings of the rows at the listed keys |
| Reviews.AverageIndependentOfOrder | MKEToolInterview.Service/ReviewService.cs:72-124 | the recompute gives the same result whatever order the query lists the reviews in |
| Reviews.CreatedReviewIsFound | MKEToolInterview.Service/ReviewService.cs:26-64 | after a create, reading the new review gives the stored, clamped review |
| Reviews.UpdatedReviewKeepsRating | MKEToolInterview.Service/ReviewService.cs:98-108 | an updated review reads back with its rating as given, above 5 when given above 5 |
| Reviews.ClampedUpdateKeepsRatingInRange | MKEToolInterview.Test/ReviewServiceTests.cs:171-221 | with the clamp, an updated review reads back with its rating in [0,5] |
| Reviews.DeletingOnlyReviewLeavesNoRatings | MKEToolInterview.Service/ReviewService.cs:110-129 | deleting a restaurant's only review leaves an empty listing, whose as-written mean is NaN |
| Reviews.DecodedReviewMatchesKey | MKEToolInterview.Service/Mappers/RestaurantReviewMapper.cs:39-55 | a decoded review's restaurant id and id are the text of its row's key |
| Reviews.ListedReviewsBelongToRestaurant | MKEToolInterview.Service/ReviewService.cs:66-81 | one listed review per review row of the restaurant, each from that partition, never the summary row |
| ReviewConsistency.ListingMean | MKEToolInterview.Service/ReviewService.cs:122-124 | any listing of a restaurant's review rows decodes, and its mean is the mean of its reviews |
| ReviewConsistency.CreateRestaurantStep | MKEToolInterview.Service/RestaurantService.cs:27-50 | a new restaurant is stored with no reviews |
| ReviewConsistency.RecomputeStep | MKEToolInterview.Service/ReviewService.cs:120-129 | the recompute succeeds and the summary then holds the mean of the reviews |
| ReviewConsistency.EnumeratesSnoc | MKEToolInterview.Service/ReviewService.cs:59 | a new key appended to a listing lists the grown set |
| ReviewConsistency.EnumeratesWithout | MKEToolInterview.Service/ReviewService.cs:113 | a listing with one key dropped lists the set without it |
| ReviewConsistency.PutReviewStep | MKEToolInterview.Service/ReviewService.cs:47-59 | the put adds the review row and changes nothing else the invariant reads |
| ReviewConsistency.CreateReviewStep | MKEToolInterview.Service/ReviewService.cs:26-64 | creating a review returns its id and keeps the average equal to the mean of all reviews, the new one included |
| ReviewConsistency.UpdateReviewStep | MKEToolInterview.Service/ReviewService.cs:98-108 | updating a review replaces it and keeps the average equal to the mean of the changed reviews |
| ReviewConsistency.RemoveReviewStep | MKEToolInterview.Service/ReviewService.cs:113 | deleting a review row drops it from the restaurant's reviews and keeps the summary row |
| ReviewConsistency.DeleteReviewStep | MKEToolInterview.Service/ReviewService.cs:110-118 | deleting one of several reviews keeps the average equal to the mean of those left |
| ReviewConsistency.RecomputeCorrectedStep | MKEToolInterview.Service/ReviewService.cs:120-129 | corrected: the recompute succeeds and the summary then holds the mean of the reviews, which is no average when there are none |
| ReviewConsistency.DeleteReviewCorrectedStep | MKEToolInterview.Service/ReviewService.cs:110-129 | corrected: deleting any one review, the last included, keeps the average equal to the mean of those left; after the last one the restaurant reads back with no average |
| Scenarios.CreateReview | MKEToolInterview.Service/ReviewService.cs:26-64 | `CreateNewReview` on a restaurant that keeps the invariant keeps it, with the new review appended |
| Scenarios.UpdateReview | MKEToolInterview.Service/ReviewService.cs:98-108 | `UpdateReview` keeps the invariant, with the review replaced |
| Scenarios.DeleteReview | MKEToolInterview.Service/ReviewService.cs:110-118 | `DeleteReview` keeps the invariant, with the review dropped |
| Scenarios.DeleteOnlyReview | MKEToolInterview.Service/ReviewService.cs:110-129 | corrected: deleting a restaurant's only review leaves it with no reviews, and it reads back with no average |
| Scenarios.ReadAverage | MKEToolInterview.Service/RestaurantService.cs:69-82 | reading a restaurant gives its stored average |
| Scenarios.PostFirst | MKEToolInterview.Test/ReviewServiceTests.cs:305 | a first review rated 2 makes the average 2 |
| Scenarios.PostSecond | MKEToolInterview.Test/ReviewServiceTests.cs:308-313 | a second review rated 4 makes the average 3 |
| Scenarios.RateSecondFive | MKEToolInterview.Test/ReviewServiceTests.cs:338-353 | re-rating the second review to 5 makes the average 3.5 |
| Scenarios.DeleteSecond | MKEToolInterview.Test/ReviewServiceTests.cs:378-384 | deleting the second review leaves the first's rating as the average |
| Scenarios.AverageFollowsReviews | MKEToolInterview.Test/ReviewServiceTests.cs:287-385 | on an empty table: averages 3, then 3.5 after the update, then 2 after the delete |
| Scenarios.LastReviewDeleted | MKEToolInterview.Service/ReviewService.cs:110-129 | corrected: one review rated 2 gives an average of 2, and deleting it leaves no average |
| Scenarios.CreateThenRead | MKEToolInterview.Test/RestaurantServiceTests.cs:55-98 | a created restaurant reads back with its four texts and no average, even when one was given |
| Scenarios.UpdateThenRead | MKEToolInterview.Test/RestaurantServiceTests.cs:101-166 | an update of a created restaurant reads back as exactly the update, average included |
| Scenarios.DeleteOneOfTwo | MKEToolInterview.Test/RestaurantServiceTests.cs:169-199 | of two restaurants, deleting the second leaves a listing of exactly the first |
| Scenarios.OnlyFirstIsListed | MKEToolInterview.Service/RestaurantService.cs:52-101 | after two creates and one delete, every listing decodes to the survivor alone |

## Left out

- Network and SDK: the DynamoDB client, batching, retries and unprocessed batch items are not modelled. The table is the `Store` object.
- `async`/`await` is not modelled. Neither is the race between concurrent review changes that recompute the same average: the model is sequential.
- The lazy LINQ `Select` at MKEToolInterview.Service/RestaurantService.cs:66 and ReviewService.cs:80 is decoded eagerly. A decoding failure shows up as the operation's error rather than on enumeration.
- IEEE doubles: ratings are reals, and `ToString`/`double.Parse` are the abstract `NumberFormat`. Culture-dependent formatting and rounding in the mean are not modelled.
- `Guid.Parse` accepts only the lower-case hyphenated form that `Guid.ToString()` writes. The other formats .NET accepts are not modelled.
- `Guid.NewGuid` randomness: new ids are parameters.
- The controller (MKEToolInterview/Controllers/RestaurantsController.cs) returns hard-coded data and is not part of this model.
- The services write their id and average into the caller's record objects (RestaurantService.cs:30, :33; ReviewService.cs:39-45, :126). The model treats records as values, so the caller does not see those changes.
- `DeleteAllReviewsForRestaurant`, called at MKEToolInterview.Test/ReviewServiceTests.cs:278, does not exist in ReviewService.cs. It is not modelled.
- Reviews.ReviewService.UpdateAverageRatingOnRestaurant: when no reviews are left, the C# writes `NaN` (0/0) as the average. The model's average is a real and cannot hold `NaN`, so it writes no average, and the merge keeps the stored one. `Ratings.MeanAsWritten` and `Reviews.DeletingOnlyReviewLeavesNoRatings` record the as-written NaN.
- Reviews.ReviewService.DeleteReview: deleting a restaurant's last review keeps the old stored average in the model, where the C# stores `NaN`. The same reason applies. The corrected `Reviews.ReviewService.DeleteReviewCorrected` leaves no average.
- Restaurants.RestaurantService.CreateNewRestaurant and Reviews.ReviewService.CreateNewReview: a null `Name`, `Address`, `Description`, `Hours`, `User` or `ReviewText` becomes a stored null in the model. The C# sends `new AttributeValue { S = null }` (RestaurantSummaryMapper.cs:19-22, RestaurantReviewMapper.cs:21-22). That value has no type, and BatchWriteItem rejects it with a ValidationException. The model does not raise that error.
- Table.Store.RemoveAttribute: on a missing row it changes nothing. DynamoDB's UpdateItem may create the row instead. The corrected recompute only removes the attribute of the row it has just written.
- Reviews.ReviewService.UpdateReview and Reviews.ReviewService.DeleteReview do not check that the restaurant exists. On a missing restaurant the model writes the review change and then returns the `NullReference` that ReviewService.cs:122 would throw.
- ReviewConsistency.DeleteReviewStep: covers deleting one of at least two reviews. For the last review, the as-written service breaks the invariant by keeping a stale average (`Reviews.RecomputeWithNoReviewsKeepsAverage`). `ReviewConsistency.DeleteReviewCorrectedStep` covers every case.
- Restaurants.RestaurantService.DeleteRestaurant: does not cascade to the restaurant's reviews, as in the source (RestaurantService.cs:100). `Restaurants.DeleteRestaurantKeepsReviews` states this.
- Scenarios.AverageFollowsReviews: asks that the abstract number format round-trips the ratings and averages involved (2, 4, 5, 3 and 3.5).

## Findings

| source | as written | input that shows it | evidently intended | confidence | as-written member | corrected member |
|---|---|---|---|---|---|---|
| MKEToolInterview.Service/ReviewService.cs:98-108 | `UpdateReview` stores the rating unclamped | updating a review to rating 6.5, which reads back as 6.5 (the test at ReviewServiceTests.cs:171-221 expects 5) | the rating is pinned to [0,5] on update, as on create | not executed | Reviews.UpdatedReviewKeepsRating | Reviews.ClampedUpdateKeepsRatingInRange |
| MKEToolInterview.Service/ReviewService.cs:124 | the average is sum/count with no empty guard | deleting a restaurant's only review: 0/0 gives NaN | no average once no reviews remain. Guarding line 124 alone would not do it: the mapper omits a null average (RestaurantSummaryMapper.cs:40-42) and the update merges, so the stale average would stay. The corrected recompute also removes the stored attribute | not executed | Ratings.MeanAsWritten | ReviewConsistency.DeleteReviewCorrectedStep |
| MKEToolInterview/Models/RestaurantSummaryMapper.cs:37-38 | `Hours` and `AverageRating` are read from `RestaurantId` | decoding the encoder's output for any summary throws on the null `N` of `RestaurantId` | each field is read from its own attribute | not executed | WebSummaryMapper.WebDecodeOfEncodeFails | WebSummaryMapper.CorrectedRoundTrip |
