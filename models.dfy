/** The two records of the core, as values. */
module Models {
  import opened Wrappers
  import opened Guids

  /** A C# `string`, which may be null. */
  type NullableString = Option<string>

  /** One restaurant: the row at sort key "Summary" of its partition. */
  datatype RestaurantSummary = RestaurantSummary(
    id: Guid,
    name: NullableString,
    address: NullableString,
    description: NullableString,
    hours: NullableString,
    averageRating: Option<real>)

  /** One review of a restaurant: a row at sort key "Review#" + its id. */
  datatype RestaurantReview = RestaurantReview(
    restaurantId: Guid,
    id: Guid,
    rating: real,
    user: NullableString,
    reviewText: NullableString)
}
