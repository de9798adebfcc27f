/**
 * The single-table key scheme. Every row lives in the partition of its
 * restaurant's id; the sort key is "Summary" for the restaurant itself and
 * "Review#" followed by the review's id for each of its reviews.
 */
module Keys {
  import opened Wrappers
  import opened DocumentModel

  const PartitionAttribute := "RestaurantId"
  const SortKeyAttribute := "SortKey"
  const SummarySortKey := "Summary"
  const ReviewPrefix := "Review#"

  datatype Key = Key(partition: string, sort: string)

  function SummaryKey(restaurantId: string): Key {
    Key(restaurantId, SummarySortKey)
  }

  function ReviewSortKey(reviewId: string): string {
    ReviewPrefix + reviewId
  }

  function ReviewKey(restaurantId: string, reviewId: string): Key {
    Key(restaurantId, ReviewSortKey(reviewId))
  }

  /** Distinct review ids give distinct rows within a restaurant's partition. */
  lemma ReviewKeyInjective(restaurantId: string, reviewId: string, otherId: string)
    requires ReviewKey(restaurantId, reviewId) == ReviewKey(restaurantId, otherId)
    ensures reviewId == otherId
  {
    assert reviewId == ReviewSortKey(reviewId)[|ReviewPrefix|..];
    assert otherId == ReviewSortKey(otherId)[|ReviewPrefix|..];
  }

  /** The table key an item carries: its `RestaurantId` and `SortKey` string attributes. */
  function KeyOf(item: Document): (k: Option<Key>)
    ensures k.Some? <==> PartitionAttribute in item && item[PartitionAttribute].S?
                         && SortKeyAttribute in item && item[SortKeyAttribute].S?
    ensures k.Some? ==> item[PartitionAttribute] == S(k.value.partition) && item[SortKeyAttribute] == S(k.value.sort)
  {
    if PartitionAttribute in item && item[PartitionAttribute].S? && SortKeyAttribute in item && item[SortKeyAttribute].S? then
      Some(Key(item[PartitionAttribute].text, item[SortKeyAttribute].text))
    else
      None
  }

  /** The two sort-key shapes never meet: no review key is the summary key. */
  lemma SummaryIsNoReviewKey(restaurantId: string, reviewId: string)
    ensures SummaryKey(restaurantId) != ReviewKey(restaurantId, reviewId)
    ensures !(ReviewPrefix <= SummarySortKey)
  {
    assert SummarySortKey[0] != ReviewPrefix[0];
  }
}
