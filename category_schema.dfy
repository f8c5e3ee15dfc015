/** CategorySchema: the per-field constraints a category body must meet before it is stored. */
module CategorySchema {
  import opened Base
  import opened Zod

  datatype CategoryInput = CategoryInput(
    name: string,
    image: string,
    description: string,
    createdAt: Option<int>,
    updatedAt: Option<int>)

  /** The declared constraints, stated field by field. */
  predicate Valid(fmt: Formats, c: CategoryInput)
  {
    |c.name| > 0 && fmt.isUrl(c.image) && |c.description| > 0
  }

  /** What `CategorySchema.safeParse` reports; the body passes exactly when the list is empty. */
  function Issues(fmt: Formats, c: CategoryInput): (issues: seq<Issue>)
    ensures issues == [] <==> Valid(fmt, c)
    ensures forall i :: 0 <= i < |issues| ==> issues[i].path in {"name", "image", "description"}
  {
    Check(c.name != "", "name", "Name is required")
    + Check(fmt.isUrl(c.image), "image", "Image must be a valid URL")
    + Check(c.description != "", "description", "Description is required")
  }

  /** The timestamps are optional and unconstrained: they never decide acceptance. */
  lemma TimestampsOptional(fmt: Formats, c: CategoryInput, createdAt: Option<int>, updatedAt: Option<int>)
    ensures Issues(fmt, c) == Issues(fmt, c.(createdAt := createdAt, updatedAt := updatedAt))
  {
  }
}
