# Cache-aside services of an e-commerce API, modelled in Dafny

The API keeps products, categories and reviews in a relational database.
It puts a Redis cache in front of every read. Each handler is a short
sequence of steps over two stores:

- reads build a key, answer from the cache on a hit, and on a miss load
  from the database and `SET` the answer (usually with an expiry, `EX`);
- writes change the database first, then `SET` and/or `DEL` literal keys.

Before `create` stores anything, a zod schema checks the request body.

This model treats the database as a map from id to row. It treats Redis as
a map from key to `Entry(value, ttl)`. `SET` replaces a whole entry and
`DEL` removes one exact key: `*` is not a pattern. The modules are:

- `Base`, `Responses`, `Redis`, `Zod`, `Text`: shared vocabulary. `Text`
  holds the JavaScript rendering of integers in template literals, colon
  joining and counting, and UTF-16 length.
- `ProductSchema`, `CategorySchema`, `ReviewSchema`, `UserSchema`: each
  schema has `Valid`, its declared constraints, and `Issues`, the
  field-by-field checks with their messages. Each `Issues` is proved empty
  exactly when `Valid` holds.
- `Products`, `Categories`, `Reviews`: each handler is a step function on
  a `Store(db, cache)` value. A class (`ProductsService`, …) holds `db` and
  `cache` as fields, and its methods perform the same `SET`/`DEL`
  sequence in place. Each method is proved to end in the state its step
  function gives.
- `Keyspace`: the three services share one Redis instance, and no key of
  one service is a key of another.

Answers the model cannot compute are parameters. These are the id the
database gives a new row (`None` when the insert fails) and the rows a
`findMany` returns. The URL, e-mail and UUID formats are the fields of a
`Formats` value.

The main results:

- No key built by products `findAll` equals `"products"` or
  `"products:*"`, so no write ever evicts a cached product list. Lists go
  stale after `update` and `remove`.
- In all three services, a cached single-entity entry always equals the
  database row (`Coherent`).
- The `"categories"` list always lists the database exactly.
- A cached per-product review list holds only current reviews of that
  product, but `create` does not evict it, so it can lack newer reviews.

## Model

| member | source | states |
|---|---|---|
| Redis.Set | src/resources/products/products.service.ts:25-27 | `SET k v [EX ttl]` leaves `k` holding exactly the new value and expiry, and no other key changes |
| Redis.Del | src/resources/products/products.service.ts:152 | `DEL k` removes exactly the key `k` and no other key changes: `*` is not a pattern |
| Text.NatDecimal | src/resources/products/products.service.ts:57-59 | the decimal text of a non-negative number is non-empty and all digits |
| Text.DecimalRoundTrip | src/resources/products/products.service.ts:57-59 | reading the digits back gives the number: the rendering loses nothing |
| Text.IntDecimal | src/resources/products/products.service.ts:57-59 | the rendering of any integer (as `${take}` renders it) is non-empty |
| Text.IntDecimalInjective | src/resources/products/products.service.ts:57-59 | two integers render alike if and only if they are equal |
| Text.CountAppend | src/resources/products/products.service.ts:57-59 | colons in a concatenation add up |
| Text.ColonJoin | src/resources/products/products.service.ts:57-59 | a single field joins to itself; with more fields, a ':' follows the first field |
| Text.ColonJoinCount | src/resources/products/products.service.ts:57-59 | n joined fields hold at least n-1 colons |
| Text.ColonJoinLength | src/resources/products/products.service.ts:57-59 | n non-empty joined fields give at least 2n-1 characters |
| Text.JoinTwo | src/resources/products/products.service.ts:57-59 | the joined text is the first two fields with their colons, followed by the join of the rest |
| Text.JoinSameHead | src/resources/products/products.service.ts:57-59 | when two leading pairs of fields join to the same text, the whole keys agree whatever follows |
| Text.SplitAtColon | src/resources/products/products.service.ts:57-59 | a ':' after a colon-free prefix splits the text uniquely |
| Text.ColonJoinInjective | src/resources/products/products.service.ts:57-59 | colon-free fields join to the same text if and only if they are the same fields |
| Text.Utf16Length | src/schemas/user.schema.ts:7 | the length zod measures lies between the number of code points and twice that |
| Products.Apply | src/resources/products/products.service.ts:147-150 | each field the patch names takes the patch's value, every other field keeps its value, the id and the timestamps are kept, and a patch naming no field leaves the row as it was |
| Products.ApplyIdempotent | src/resources/products/products.service.ts:147-150 | applying the same patch twice gives the row of one update |
| Products.ProductKey | src/resources/products/products.service.ts:25 | `product:{id}` has the id after the prefix ending in ':' at index 7 |
| Products.TextSlot | src/resources/products/products.service.ts:57-59 | a string field renders as "all" exactly when it is undefined, empty or "all" |
| Products.NumberSlot | src/resources/products/products.service.ts:57-59 | a number field renders as "all" exactly when it is undefined or 0, and never holds ':' |
| Products.Slots | src/resources/products/products.service.ts:57-59 | the key template has six fields and none of them is ever empty |
| Products.ListKey | src/resources/products/products.service.ts:57-59 | the list key starts with "products:", holds at least six colons, and differs from "products", "products:*" and every `product:{id}` |
| Products.TextSlotEquality | src/resources/products/products.service.ts:57-59 | two string fields render alike iff they agree once falsy values are merged with "all" |
| Products.NumberSlotEquality | src/resources/products/products.service.ts:57-59 | two number fields render alike iff they are equal or both falsy |
| Products.SlotsEquality | src/resources/products/products.service.ts:57-59 | the six fields agree iff the queries agree field by field |
| Products.ColonFreeSlots | src/resources/products/products.service.ts:57-59 | parameters without ':' give fields without ':' |
| Products.ListKeyIdentifiesQuery | src/resources/products/products.service.ts:57-59 | for colon-free parameters, two queries share a key iff they are the same query up to falsy values |
| Products.SearchAllCollides | src/resources/products/products.service.ts:57-58 | a search for "all" reads the list cached for no search |
| Products.ZeroPaginationCollides | src/resources/products/products.service.ts:59 | take and skip of 0 read the list cached for no pagination |
| Products.ColonCollides | src/resources/products/products.service.ts:57-59 | two different queries with ':' in a parameter share one key |
| Products.KeptOutsideLists | src/resources/products/products.service.ts:28 | a change confined to keys no `findAll` builds keeps every cached list |
| Products.CacheNewRowKeepsCoherent | src/resources/products/products.service.ts:22-28 | inserting a row, caching it under its own key and deleting "products" keeps every `product:{id}` entry equal to its row |
| Products.CreateStep | src/resources/products/products.service.ts:16-46 | succeeds iff the body is valid and the insert succeeds; on failure nothing changes; on success the db gains the row, `product:{id}` holds it for 600 s, "products" is gone, no other key changes, every list survives, coherence is kept |
| Products.FindAllStep | src/resources/products/products.service.ts:48-106 | a hit answers the stored list and changes nothing; a miss stores the loaded rows for 3600 s under the same key and changes no other key; a failed query changes nothing; coherence and list soundness are kept |
| Products.FindOneStep | src/resources/products/products.service.ts:108-143 | a hit answers from the cache; an unknown id fails with nothing changed; otherwise the row is cached for 600 s; under coherence the answer is exactly the db row |
| Products.UpdateStep | src/resources/products/products.service.ts:145-170 | fails with nothing changed for an unknown id; else patches the row and deletes exactly `product:{id}` and the literal "products:*"; every list survives; coherence is kept |
| Products.RemoveStep | src/resources/products/products.service.ts:172-196 | fails with nothing changed for an unknown id; else deletes the row, `product:{id}` and the literal "products:*"; every list survives; coherence is kept |
| Products.RemovedProductStaysListed | src/resources/products/products.service.ts:177-178 | after `remove`, a list cached before is still answered from the cache and still offers the removed product |
| Products.UpdatedProductListedStale | src/resources/products/products.service.ts:151-152 | after `update`, a list cached before still shows the old row |
| Products.UpdateThenFindOne | src/resources/products/products.service.ts:151 | after `update`, `findOne` misses and answers the updated row |
| Products.ProductsService.Create | src/resources/products/products.service.ts:16-46 | the in-place handler ends in the state and answer of `CreateStep` |
| Products.ProductsService.FindAll | src/resources/products/products.service.ts:48-106 | the in-place handler ends in the state and answer of `FindAllStep` |
| Products.ProductsService.FindOne | src/resources/products/products.service.ts:108-143 | the in-place handler ends in the state and answer of `FindOneStep` |
| Products.ProductsService.Update | src/resources/products/products.service.ts:145-170 | the in-place handler ends in the state and answer of `UpdateStep` |
| Products.ProductsService.Remove | src/resources/products/products.service.ts:172-196 | the in-place handler ends in the state and answer of `RemoveStep` |
| Categories.Apply | src/resources/categories/categories.service.ts:119-122 | each field the patch names takes the patch's value, every other field keeps its value, the id and the timestamps are kept, and a patch naming no field leaves the row as it was |
| Categories.ApplyIdempotent | src/resources/categories/categories.service.ts:119-122 | applying the same patch twice gives the row of one update |
| Categories.CategoryKey | src/resources/categories/categories.service.ts:25 | `category:{id}` has the id after the prefix ending in ':' at index 8 |
| Categories.CategoryKeyIsNotListKey | src/resources/categories/categories.service.ts:25-28 | no `category:{id}` key is "categories" |
| Categories.CacheNewRowKeepsCoherent | src/resources/categories/categories.service.ts:22-28 | inserting a row, caching it and deleting "categories" keeps the cache coherent |
| Categories.EvictRowKeepsCoherent | src/resources/categories/categories.service.ts:119-124 | changing or deleting a row while deleting its key and "categories" keeps the cache coherent |
| Categories.CacheListKeepsCoherent | src/resources/categories/categories.service.ts:59-60 | caching a full listing of the database under "categories" keeps the cache coherent |
| Categories.CacheRowKeepsCoherent | src/resources/categories/categories.service.ts:91-97 | caching the current row under its key, with no expiry, keeps the cache coherent |
| Categories.CreateStep | src/resources/categories/categories.service.ts:16-46 | succeeds iff the body is valid and the insert succeeds; on failure nothing changes; on success `category:{id}` holds the row for 600 s and "categories" is gone; coherence is kept |
| Categories.FindAllStep | src/resources/categories/categories.service.ts:48-78 | a hit answers the "categories" entry and changes nothing; a miss stores the loaded rows for 3600 s; a failed query answers an error and caches nothing; under coherence every successful answer lists the database exactly |
| Categories.FindOneStep | src/resources/categories/categories.service.ts:80-115 | a hit answers from the cache; an unknown id fails with nothing changed; otherwise the row is cached with no expiry; under coherence the answer is exactly the db row |
| Categories.UpdateStep | src/resources/categories/categories.service.ts:117-142 | fails with nothing changed for an unknown id; else patches the row and deletes exactly `category:{id}` and "categories"; coherence is kept |
| Categories.RemoveStep | src/resources/categories/categories.service.ts:144-168 | fails with nothing changed for an unknown id; else deletes the row and exactly `category:{id}` and "categories"; coherence is kept |
| Categories.CreateThenFindAllReloads | src/resources/categories/categories.service.ts:28-60 | after `create` the next `findAll` misses and its answer includes the new category |
| Categories.CreateThenFindOneHits | src/resources/categories/categories.service.ts:25-27 | a read right after `create` is a cache hit on the new category, whose entry expires after 600 s |
| Categories.UpdateThenFindOneCachesForever | src/resources/categories/categories.service.ts:97 | a read right after `update` misses and caches the updated row with no expiry |
| Categories.CategoriesService.Create | src/resources/categories/categories.service.ts:16-46 | the in-place handler ends in the state and answer of `CreateStep` |
| Categories.CategoriesService.FindAll | src/resources/categories/categories.service.ts:48-78 | the in-place handler ends in the state and answer of `FindAllStep` |
| Categories.CategoriesService.FindOne | src/resources/categories/categories.service.ts:80-115 | the in-place handler ends in the state and answer of `FindOneStep` |
| Categories.CategoriesService.Update | src/resources/categories/categories.service.ts:117-142 | the in-place handler ends in the state and answer of `UpdateStep` |
| Categories.CategoriesService.Remove | src/resources/categories/categories.service.ts:144-168 | the in-place handler ends in the state and answer of `RemoveStep` |
| Reviews.Apply | src/resources/reviews/reviews.service.ts:146-151 | each field the patch names takes the patch's value, every other field keeps its value, the id and the timestamps are kept, and a patch naming no field leaves the row as it was |
| Reviews.ApplyIdempotent | src/resources/reviews/reviews.service.ts:146-151 | applying the same patch twice gives the row of one update |
| Reviews.ReviewKey | src/resources/reviews/reviews.service.ts:25 | `review:{id}` has the id after a 7-character prefix |
| Reviews.ListKey | src/resources/reviews/reviews.service.ts:52 | `product reviews:{productId}` has the product id after a 16-character prefix |
| Reviews.KeysDistinct | src/resources/reviews/reviews.service.ts:52 | review keys and list keys are each injective and never equal each other |
| Reviews.CacheNewRowKeepsCoherent | src/resources/reviews/reviews.service.ts:22-27 | inserting a row and caching it under its own key keeps the cache coherent |
| Reviews.EvictRowKeepsCoherent | src/resources/reviews/reviews.service.ts:146-153 | changing or deleting a row while deleting its key and its old product's list keeps the cache coherent |
| Reviews.CacheListKeepsCoherent | src/resources/reviews/reviews.service.ts:61-68 | caching the current reviews of one product under its list key keeps the cache coherent |
| Reviews.CacheRowKeepsCoherent | src/resources/reviews/reviews.service.ts:99-107 | caching the current row under its key keeps the cache coherent |
| Reviews.CreateStep | src/resources/reviews/reviews.service.ts:16-45 | succeeds iff the body is valid and the insert succeeds; on failure nothing changes; on success only `review:{id}` is set, for 600 s; coherence is kept |
| Reviews.FindAllStep | src/resources/reviews/reviews.service.ts:47-86 | an absent or empty productId fails with nothing changed; a hit answers the product's list; a miss stores the product's reviews for 600 s; a failed query answers an error and caches nothing; under coherence every review answered is current and belongs to that product |
| Reviews.FindOneStep | src/resources/reviews/reviews.service.ts:88-125 | a hit answers from the cache; an unknown id fails with nothing changed; otherwise the row is cached for 600 s; under coherence the answer is exactly the db row |
| Reviews.UpdateStep | src/resources/reviews/reviews.service.ts:127-171 | succeeds iff the review exists and belongs to the caller, else nothing changes; deletes exactly `review:{id}` and the list of the product read before the write; coherence is kept |
| Reviews.RemoveStep | src/resources/reviews/reviews.service.ts:173-212 | succeeds iff the review exists and belongs to the caller, else nothing changes; afterwards neither the row nor `review:{id}` remains and the old product's list is gone; coherence is kept |
| Reviews.OnlyOwnerMayWrite | src/resources/reviews/reviews.service.ts:138-145 | any other user's `update` and `remove` fail with nothing changed, while the owner's succeed |
| Reviews.CreatedReviewMissingFromCachedList | src/resources/reviews/reviews.service.ts:25-58 | after `create`, a cached list of the product is answered from the cache without the new review, although the database lists it |
| Reviews.MovedReviewMissingFromNewList | src/resources/reviews/reviews.service.ts:153 | a review moved to another product is missing from that product's cached list |
| Reviews.ReviewsService.Create | src/resources/reviews/reviews.service.ts:16-45 | the in-place handler ends in the state and answer of `CreateStep` |
| Reviews.ReviewsService.FindAll | src/resources/reviews/reviews.service.ts:47-86 | the in-place handler ends in the state and answer of `FindAllStep` |
| Reviews.ReviewsService.FindOne | src/resources/reviews/reviews.service.ts:88-125 | the in-place handler ends in the state and answer of `FindOneStep` |
| Reviews.ReviewsService.Update | src/resources/reviews/reviews.service.ts:127-171 | the in-place handler ends in the state and answer of `UpdateStep` |
| Reviews.ReviewsService.Remove | src/resources/reviews/reviews.service.ts:173-212 | the in-place handler ends in the state and answer of `RemoveStep` |
| Keyspace.ServiceKeysDisjoint | src/resources/reviews/reviews.service.ts:152-153 | no key a product, category or review handler uses is a key of another service, including `product reviews:{productId}` against `product:{id}` and `products:…` |
| ProductSchema.Issues | src/schemas/product.schema.ts:3-16 | the issue list is empty iff name and description are non-empty, image is a URL, price > 0, 0 <= rating <= 5, stock is a whole number >= 0 and categoryId is a UUID |
| ProductSchema.RatingFloorIsZero | src/schemas/product.schema.ts:8-11 | a rating of 0 passes; a negative rating draws "Rating must be at least 1" |
| ProductSchema.StockIsWholeNumber | src/schemas/product.schema.ts:12 | a fractional stock and a negative stock are each refused with their own message |
| ProductSchema.TimestampsOptional | src/schemas/product.schema.ts:14-15 | the timestamps never change the issues |
| CategorySchema.Issues | src/schemas/category.schema.ts:3-9 | the issue list is empty iff name and description are non-empty and image is a URL |
| CategorySchema.TimestampsOptional | src/schemas/category.schema.ts:7-8 | the timestamps never change the issues |
| ReviewSchema.Issues | src/schemas/review.schema.ts:3-14 | the issue list is empty iff rating is a whole number in 1..5, review is non-empty and both ids are UUIDs |
| ReviewSchema.RatingIsOneToFive | src/schemas/review.schema.ts:4-8 | an accepted rating is one of 1, 2, 3, 4, 5 |
| ReviewSchema.ProductIdHasUuidLayout | src/schemas/review.schema.ts:10-11 | with a UUID format keeping the RFC 9562 layout, accepted ids are 36 characters |
| ReviewSchema.TimestampsOptional | src/schemas/review.schema.ts:12-13 | the timestamps never change the issues |
| UserSchema.ParseRole | src/schemas/user.schema.ts:8 | exactly "admin", "seller" and "buyer" are roles, each read back as its own name |
| UserSchema.RoleRoundTrip | src/schemas/user.schema.ts:8 | every role's name parses back to that role |
| UserSchema.Issues | src/schemas/user.schema.ts:3-11 | the issue list is empty iff name is non-empty, email is an e-mail, the password has at least 6 UTF-16 units and a given role is one of the three |
| UserSchema.Parse | src/schemas/user.schema.ts:3-11 | succeeds iff the body is valid; a failure carries issues; success copies every field and gives an absent role the default `buyer` |
| UserSchema.PasswordMinimum | src/schemas/user.schema.ts:7 | five characters are refused, six accepted |
| UserSchema.OptionalFieldsUnchecked | src/schemas/user.schema.ts:5-10 | image and timestamps never change the issues |

## Left out

- Redis connection and failures (src/config/redis.config.ts is not part of this model). A cache error after the database write also surfaces as a 400, but the database change stays. The model has no such failure.
- Expiry: TTLs are recorded in each entry and never elapse.
- The product filter built from `categoryId`, `search`, `price` and `rating` (src/resources/products/products.service.ts:70-79). It uses `parseFloat` and case-insensitive matching. The rows `findMany` returns are a parameter of `FindAllStep`, and `findMany` order is not modelled either.
- JSON serialisation: a cached value is read back as the value stored.
- HTTP layer, controllers, guards, authentication, JWT and the role check, payments, and the users and orders services.
- Response bodies: status codes, messages and the `success` flag. Every failure is the single `BadRequest`.
- Concurrency: each handler is one atomic step.
- Database defaults (timestamps, generated ids) and foreign-key checks. The new id is a parameter, and `None` stands for any refused insert. In `update`, a patch never changes the id, and it cannot fail for a reason other than an unknown id.
- Products.Apply, Categories.Apply, Reviews.Apply: the timestamps are kept as stored, because the Prisma schema, which may refresh `updatedAt` on every write, is not part of this model.
- Products.NumberSlot: renders `take`/`skip` as integers only. NaN, Infinity, fractions and the exponent form JavaScript uses from 1e21 upwards are not modelled.
- Products.ListKeyIdentifiesQuery: proved only for parameters without ':'. With a ':' the fields shift and different queries can share a key (`ColonCollides`).
- Schemas: bodies whose fields have the wrong JSON type or are missing are not representable. Numbers are `real`, so NaN and Infinity are left out. Dates are opaque integers.
- URL, e-mail and UUID formats are uninterpreted functions. The only assumption is the optional RFC 9562 layout condition `UuidSound`.
- One Redis instance is shared by the services in the source, but here each service has its own cache map. Their keys never overlap (`Keyspace.ServiceKeysDisjoint`): category keys start with "ca", review keys with "r", and `product reviews:{productId}` has a space at index 7 where every product key has ':' or 's'.
