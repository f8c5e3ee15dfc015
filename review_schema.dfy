/** ReviewSchema: the per-field constraints a review body must meet before it is stored. */
module ReviewSchema {
  import opened Base
  import opened Zod

  datatype ReviewInput = ReviewInput(
    rating: real,
    review: string,
    userId: string,
    productId: string,
    createdAt: Option<int>,
    updatedAt: Option<int>)

  /** The declared constraints, stated field by field. */
  predicate Valid(fmt: Formats, r: ReviewInput)
  {
    && IsInteger(r.rating) && 1.0 <= r.rating <= 5.0
    && |r.review| > 0
    && fmt.isUuid(r.userId)
    && fmt.isUuid(r.productId)
  }

  /** What `ReviewSchema.safeParse` reports; the body passes exactly when the list is empty. */
  function Issues(fmt: Formats, r: ReviewInput): (issues: seq<Issue>)
    ensures issues == [] <==> Valid(fmt, r)
    ensures forall i :: 0 <= i < |issues| ==> issues[i].path in {"rating", "review", "userId", "productId"}
  {
    Check(IsInteger(r.rating), "rating", "Expected integer, received float")
    + Check(r.rating >= 1.0, "rating", "Rating must be at least 1")
    + Check(r.rating <= 5.0, "rating", "Rating must be between 1 and 5")
    + Check(r.review != "", "review", "Review is required")
    + Check(fmt.isUuid(r.userId), "userId", "User ID must be a valid UUID")
    + Check(fmt.isUuid(r.productId), "productId", "Product ID must be a valid UUID")
  }

  /** An accepted rating is one of the five whole numbers 1, 2, 3, 4, 5. */
  lemma RatingIsOneToFive(fmt: Formats, r: ReviewInput)
    requires Valid(fmt, r)
    ensures r.rating.Floor in {1, 2, 3, 4, 5} && r.rating == r.rating.Floor as real
  {
  }

  /** With a UUID format that keeps the RFC 9562 layout, an accepted review names a 36-character product. */
  lemma ProductIdHasUuidLayout(fmt: Formats, r: ReviewInput)
    requires UuidSound(fmt) && Valid(fmt, r)
    ensures |r.productId| == 36 && |r.userId| == 36
  {
  }

  /** The timestamps are optional and unconstrained: they never decide acceptance. */
  lemma TimestampsOptional(fmt: Formats, r: ReviewInput, createdAt: Option<int>, updatedAt: Option<int>)
    ensures Issues(fmt, r) == Issues(fmt, r.(createdAt := createdAt, updatedAt := updatedAt))
  {
  }
}
