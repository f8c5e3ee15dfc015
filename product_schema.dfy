/** ProductSchema: the per-field constraints a product body must meet before it is stored. */
module ProductSchema {
  import opened Base
  import opened Zod

  /** A product body as zod sees it once the field types match (numbers are JavaScript numbers). */
  datatype ProductInput = ProductInput(
    name: string,
    image: string,
    description: string,
    price: real,
    rating: real,
    stock: real,
    categoryId: string,
    createdAt: Option<int>,
    updatedAt: Option<int>)

  /** The declared constraints, stated field by field. */
  predicate Valid(fmt: Formats, p: ProductInput)
  {
    && |p.name| > 0
    && fmt.isUrl(p.image)
    && |p.description| > 0
    && p.price > 0.0
    && 0.0 <= p.rating <= 5.0
    && IsInteger(p.stock) && p.stock >= 0.0
    && fmt.isUuid(p.categoryId)
  }

  /**
   * What `ProductSchema.safeParse` reports: every failed check, in declaration order,
   * with the schema's message. The body passes exactly when the list is empty.
   */
  function Issues(fmt: Formats, p: ProductInput): (issues: seq<Issue>)
    ensures issues == [] <==> Valid(fmt, p)
  {
    Check(p.name != "", "name", "Name is required")
    + Check(fmt.isUrl(p.image), "image", "Image must be a valid URL")
    + Check(p.description != "", "description", "Description is required")
    + Check(p.price > 0.0, "price", "Price must be a positive number")
    + Check(p.rating >= 0.0, "rating", "Rating must be at least 1")
    + Check(p.rating <= 5.0, "rating", "Rating must be between 1 and 5")
    + Check(IsInteger(p.stock), "stock", "Expected integer, received float")
    + Check(p.stock >= 0.0, "stock", "Stock must be a positive number")
    + Check(fmt.isUuid(p.categoryId), "categoryId", "Category ID must be a valid UUID")
  }

  /**
   * The rating floor is 0, although its message speaks of 1: a rating of 0 passes,
   * and only a negative rating draws "Rating must be at least 1".
   */
  lemma RatingFloorIsZero(fmt: Formats, p: ProductInput)
    requires Valid(fmt, p)
    ensures Issues(fmt, p.(rating := 0.0)) == []
    ensures Issues(fmt, p.(rating := -1.0)) == [Issue("rating", "Rating must be at least 1")]
  {
  }

  /** Stock must be a whole number of at least 0; a fractional stock is refused. */
  lemma StockIsWholeNumber(fmt: Formats, p: ProductInput)
    requires Valid(fmt, p)
    ensures Issues(fmt, p.(stock := 0.5)) == [Issue("stock", "Expected integer, received float")]
    ensures Issues(fmt, p.(stock := -1.0)) == [Issue("stock", "Stock must be a positive number")]
  {
    assert !IsInteger(0.5) by { assert (0.5).Floor == 0; }
    assert IsInteger(-1.0) by { assert (-1.0).Floor == -1; }
  }

  /** The timestamps are optional and unconstrained: they never decide acceptance. */
  lemma TimestampsOptional(fmt: Formats, p: ProductInput, createdAt: Option<int>, updatedAt: Option<int>)
    ensures Issues(fmt, p) == Issues(fmt, p.(createdAt := createdAt, updatedAt := updatedAt))
  {
  }
}
