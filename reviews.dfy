/**
 * ReviewsService: the review handlers over the database (a map from id to
 * review) and the key-value cache. Reviews are cached one by one under
 * `review:{id}` and per product under `product reviews:{productId}`.
 */
module Reviews {
  import opened Base
  import opened Zod
  import opened Redis
  import opened Responses
  import ReviewSchema

  datatype Review = Review(id: string, data: ReviewSchema.ReviewInput)

  /**
   * A partial update: the fields to overwrite. The body is not validated; a
   * new `productId` or `userId` stands for reconnecting the review.
   */
  datatype ReviewPatch = ReviewPatch(
    rating: Option<real>,
    review: Option<string>,
    userId: Option<string>,
    productId: Option<string>)

  /** The patch that names no field. */
  const NoChange: ReviewPatch := ReviewPatch(None, None, None, None)

  /**
   * The row the database holds after `update` with `patch`: each field the
   * patch names is overwritten, the id and the timestamps are kept.
   */
  function Apply(r: Review, patch: ReviewPatch): (after: Review)
    ensures after.id == r.id
    ensures after.data.createdAt == r.data.createdAt && after.data.updatedAt == r.data.updatedAt
    ensures patch.rating.Some? ==> after.data.rating == patch.rating.value
    ensures patch.rating.None? ==> after.data.rating == r.data.rating
    ensures patch.review.Some? ==> after.data.review == patch.review.value
    ensures patch.review.None? ==> after.data.review == r.data.review
    ensures patch.userId.Some? ==> after.data.userId == patch.userId.value
    ensures patch.userId.None? ==> after.data.userId == r.data.userId
    ensures patch.productId.Some? ==> after.data.productId == patch.productId.value
    ensures patch.productId.None? ==> after.data.productId == r.data.productId
    ensures patch == NoChange ==> after == r
  {
    Review(r.id, r.data.(
      rating := Pick(r.data.rating, patch.rating),
      review := Pick(r.data.review, patch.review),
      userId := Pick(r.data.userId, patch.userId),
      productId := Pick(r.data.productId, patch.productId)))
  }

  /** Updating twice with the same patch gives the row of one update. */
  lemma ApplyIdempotent(r: Review, patch: ReviewPatch)
    ensures Apply(Apply(r, patch), patch) == Apply(r, patch)
  {
  }

  type Cache = map<string, Entry<Payload<Review>>>

  datatype Store = Store(db: map<string, Review>, cache: Cache)

  /** Expiry of every review entry, single or per product, in seconds. */
  const Ttl: nat := 600

  /** `review:${id}` */
  function ReviewKey(id: string): (k: string)
    ensures |k| == 7 + |id| && k[0] == 'r' && k[7..] == id
  {
    "review:" + id
  }

  /** `product reviews:${productId}` */
  function ListKey(productId: string): (k: string)
    ensures |k| == 16 + |productId| && k[0] == 'p' && k[16..] == productId
  {
    "product reviews:" + productId
  }

  /** Distinct reviews have distinct keys, distinct products distinct list keys, and the two kinds never meet. */
  lemma KeysDistinct(x: string, y: string, p: string, q: string)
    ensures ReviewKey(x) == ReviewKey(y) <==> x == y
    ensures ListKey(p) == ListKey(q) <==> p == q
    ensures ReviewKey(x) != ListKey(p)
  {
    if ReviewKey(x) == ReviewKey(y) {
      assert ReviewKey(x)[7..] == ReviewKey(y)[7..];
    }
    if ListKey(p) == ListKey(q) {
      assert ListKey(p)[16..] == ListKey(q)[16..];
    }
    assert ReviewKey(x)[0] != ListKey(p)[0];
  }

  /** Every row of `rows` is the current row of its id and belongs to product `p`. */
  ghost predicate ListedFor(rows: seq<Review>, db: map<string, Review>, p: string)
  {
    forall r :: r in rows ==> r.id in db && db[r.id] == r && r.data.productId == p
  }

  /** `rows` lists exactly the reviews of product `p` (what `findMany` with that filter returns). */
  ghost predicate ListsFor(rows: seq<Review>, db: map<string, Review>, p: string)
  {
    && ListedFor(rows, db, p)
    && (forall id :: id in db && db[id].data.productId == p ==> db[id] in rows)
  }

  /**
   * Every cached `review:{id}` entry holds exactly the row of `id`, and every
   * cached per-product list holds only current reviews of that product. A list
   * may lack reviews created after it was cached: `create` does not evict it.
   */
  ghost predicate Coherent(s: Store)
  {
    && (forall id {:trigger ReviewKey(id)} :: ReviewKey(id) in s.cache ==>
          id in s.db && s.cache[ReviewKey(id)].value == One(s.db[id]))
    && (forall p {:trigger ListKey(p)} :: ListKey(p) in s.cache ==>
          s.cache[ListKey(p)].value.Many? && ListedFor(s.cache[ListKey(p)].value.items, s.db, p))
  }

  /** Inserting a new row and caching it under its own key keeps the cache coherent. */
  lemma CacheNewRowKeepsCoherent(s: Store, r: Review)
    requires r.id !in s.db && Coherent(s)
    ensures Coherent(Store(s.db[r.id := r], Set(s.cache, ReviewKey(r.id), One(r), Some(Ttl))))
  {
    var db := s.db[r.id := r];
    var cache := Set(s.cache, ReviewKey(r.id), One(r), Some(Ttl));
    forall id | ReviewKey(id) in cache
      ensures id in db && cache[ReviewKey(id)].value == One(db[id])
    {
      KeysDistinct(id, r.id, "", "");
    }
    forall p | ListKey(p) in cache
      ensures cache[ListKey(p)].value.Many? && ListedFor(cache[ListKey(p)].value.items, db, p)
    {
      KeysDistinct(r.id, r.id, p, p);
    }
  }

  /** Caching the current reviews of one product under its list key keeps the cache coherent. */
  lemma CacheListKeepsCoherent(s: Store, p: string, rows: seq<Review>)
    requires Coherent(s) && ListedFor(rows, s.db, p)
    ensures Coherent(Store(s.db, Set(s.cache, ListKey(p), Many(rows), Some(Ttl))))
  {
    var cache := Set(s.cache, ListKey(p), Many(rows), Some(Ttl));
    forall id | ReviewKey(id) in cache
      ensures id in s.db && cache[ReviewKey(id)].value == One(s.db[id])
    {
      KeysDistinct(id, id, p, p);
    }
    forall q | ListKey(q) in cache
      ensures cache[ListKey(q)].value.Many? && ListedFor(cache[ListKey(q)].value.items, s.db, q)
    {
      if q == p {
        assert cache[ListKey(q)].value == Many(rows);
      } else {
        KeysDistinct("", "", q, p);
        assert ListKey(q) in s.cache && cache[ListKey(q)] == s.cache[ListKey(q)];
      }
    }
  }

  /** Caching the current row of `id` under its own key keeps the cache coherent. */
  lemma CacheRowKeepsCoherent(s: Store, id: string)
    requires Coherent(s) && id in s.db
    ensures Coherent(Store(s.db, Set(s.cache, ReviewKey(id), One(s.db[id]), Some(Ttl))))
  {
    var cache := Set(s.cache, ReviewKey(id), One(s.db[id]), Some(Ttl));
    forall x | ReviewKey(x) in cache
      ensures x in s.db && cache[ReviewKey(x)].value == One(s.db[x])
    {
      KeysDistinct(x, id, "", "");
    }
    forall p | ListKey(p) in cache
      ensures cache[ListKey(p)].value.Many? && ListedFor(cache[ListKey(p)].value.items, s.db, p)
    {
      KeysDistinct(id, id, p, p);
    }
  }

  /**
   * Changing or deleting the row of `id` while deleting its own key and the
   * list of the product it belonged to keeps the cache coherent: every other
   * list never held that row.
   */
  lemma EvictRowKeepsCoherent(s: Store, id: string, db: map<string, Review>)
    requires Coherent(s) && id in s.db
    requires db == s.db - {id} || (id in db && db == s.db[id := db[id]])
    ensures Coherent(Store(db, s.cache - {ReviewKey(id), ListKey(s.db[id].data.productId)}))
  {
    var oldProduct := s.db[id].data.productId;
    var cache := s.cache - {ReviewKey(id), ListKey(oldProduct)};
    forall x | ReviewKey(x) in cache
      ensures x in db && cache[ReviewKey(x)].value == One(db[x])
    {
      KeysDistinct(x, id, oldProduct, oldProduct);
    }
    forall p | ListKey(p) in cache
      ensures cache[ListKey(p)].value.Many? && ListedFor(cache[ListKey(p)].value.items, db, p)
    {
      KeysDistinct(id, id, p, oldProduct);
      var items := s.cache[ListKey(p)].value.items;
      forall r | r in items
        ensures r.id in db && db[r.id] == r && r.data.productId == p
      {
        assert r.id != id;
      }
    }
  }

  /** `create`: validate, insert under the id the database assigns and cache the row for ten minutes. */
  function CreateStep(fmt: Formats, s: Store, input: ReviewSchema.ReviewInput, newId: Option<string>)
    : (o: Outcome<Store, Review>)
    ensures o.resp.Ok? <==> ReviewSchema.Valid(fmt, input) && newId.Some? && newId.value !in s.db
    ensures o.resp.Err? ==> o.store == s
    ensures o.resp.Ok? ==>
      var r := Review(newId.value, input);
      && o.resp == Ok(One(r), false)
      && o.store.db == s.db[r.id := r]
      && o.store.cache == s.cache[ReviewKey(r.id) := Entry(One(r), Some(Ttl))]
    ensures Coherent(s) ==> Coherent(o.store)
  {
    if ReviewSchema.Issues(fmt, input) != [] then Outcome(s, Err(BadRequest))
    else if newId.None? || newId.value in s.db then Outcome(s, Err(BadRequest))
    else
      var r := Review(newId.value, input);
      assert Coherent(s) ==> Coherent(Store(s.db[r.id := r], Set(s.cache, ReviewKey(r.id), One(r), Some(Ttl)))) by {
        if Coherent(s) { CacheNewRowKeepsCoherent(s, r); }
      }
      Outcome(Store(s.db[r.id := r], Set(s.cache, ReviewKey(r.id), One(r), Some(Ttl))), Ok(One(r), false))
  }

  /**
   * `findAll`: a missing or empty `productId` is refused before the cache or
   * the database is touched. Otherwise a hit answers from the product's list;
   * a miss stores what `findMany` returned for the product (`loaded`, None when
   * the query failed) there for ten minutes, and a failed query answers an
   * error and caches nothing. While the cache is coherent every review
   * answered is a current review of that product.
   */
  function FindAllStep(s: Store, productId: Option<string>, loaded: Option<seq<Review>>): (o: Outcome<Store, Review>)
    requires productId.Some? && loaded.Some? ==> ListsFor(loaded.value, s.db, productId.value)
    ensures productId.None? || productId.value == "" ==> o == Outcome(s, Err(BadRequest))
    ensures o.resp.Err? ==> o.store == s
    ensures productId.Some? && productId.value != "" ==>
      var key := ListKey(productId.value);
      && (key in s.cache ==> o == Outcome(s, Ok(s.cache[key].value, true)))
      && (key !in s.cache ==> (o.resp.Ok? <==> loaded.Some?))
      && (key !in s.cache && loaded.Some? ==>
            && o.resp == Ok(Many(loaded.value), false)
            && o.store == Store(s.db, s.cache[key := Entry(Many(loaded.value), Some(Ttl))]))
    ensures Coherent(s) ==> Coherent(o.store)
    ensures Coherent(s) && o.resp.Ok? ==> o.resp.data.Many? && ListedFor(o.resp.data.items, s.db, productId.value)
  {
    if productId.None? || productId.value == "" then Outcome(s, Err(BadRequest))
    else
      var key := ListKey(productId.value);
      if key in s.cache then Outcome(s, Ok(s.cache[key].value, true))
      else if loaded.None? then Outcome(s, Err(BadRequest))
      else
        var cache := Set(s.cache, key, Many(loaded.value), Some(Ttl));
        assert Coherent(s) ==> Coherent(Store(s.db, cache)) by {
          if Coherent(s) { CacheListKeepsCoherent(s, productId.value, loaded.value); }
        }
        Outcome(Store(s.db, cache), Ok(Many(loaded.value), false))
  }

  /** `findOne`: a hit answers from the cache; a miss refuses an unknown id, and otherwise caches the row for ten minutes. */
  function FindOneStep(s: Store, id: string): (o: Outcome<Store, Review>)
    ensures ReviewKey(id) in s.cache ==> o == Outcome(s, Ok(s.cache[ReviewKey(id)].value, true))
    ensures ReviewKey(id) !in s.cache && id !in s.db ==> o == Outcome(s, Err(BadRequest))
    ensures ReviewKey(id) !in s.cache && id in s.db ==>
      && o.resp == Ok(One(s.db[id]), false)
      && o.store == Store(s.db, s.cache[ReviewKey(id) := Entry(One(s.db[id]), Some(Ttl))])
    ensures Coherent(s) ==>
      && Coherent(o.store)
      && (o.resp.Ok? <==> id in s.db)
      && (o.resp.Ok? ==> o.resp.data == One(s.db[id]))
  {
    var key := ReviewKey(id);
    if key in s.cache then Outcome(s, Ok(s.cache[key].value, true))
    else if id !in s.db then Outcome(s, Err(BadRequest))
    else
      var cache := Set(s.cache, key, One(s.db[id]), Some(Ttl));
      assert Coherent(s) ==> Coherent(Store(s.db, cache)) by {
        if Coherent(s) { CacheRowKeepsCoherent(s, id); }
      }
      Outcome(Store(s.db, cache), Ok(One(s.db[id]), false))
  }

  /** The owner check shared by `update` and `remove`: the review exists and was written by `userId`. */
  function OwnedBy(s: Store, id: string, userId: string): (b: bool)
    ensures b ==> id in s.db
    ensures id in s.db ==> (b <==> s.db[id].data.userId == userId)
  {
    id in s.db && s.db[id].data.userId == userId
  }

  /**
   * `update`: an unknown review, or one written by another user, is refused
   * and nothing changes. Otherwise the row is patched and exactly
   * `review:{id}` and the list of the product the review belonged to BEFORE
   * the update are deleted.
   */
  function UpdateStep(s: Store, id: string, patch: ReviewPatch, userId: string): (o: Outcome<Store, Review>)
    ensures o.resp.Ok? <==> OwnedBy(s, id, userId)
    ensures o.resp.Err? ==> o.store == s
    ensures OwnedBy(s, id, userId) ==>
      && o.resp == Ok(One(Apply(s.db[id], patch)), false)
      && o.store.db == s.db[id := Apply(s.db[id], patch)]
      && o.store.cache == s.cache - {ReviewKey(id), ListKey(s.db[id].data.productId)}
    ensures Coherent(s) ==> Coherent(o.store)
  {
    if id !in s.db then Outcome(s, Err(BadRequest))
    else if s.db[id].data.userId != userId then Outcome(s, Err(BadRequest))
    else
      var before := s.db[id];
      var updated := Apply(before, patch);
      var cache := Del(Del(s.cache, ReviewKey(id)), ListKey(before.data.productId));
      assert cache == s.cache - {ReviewKey(id), ListKey(before.data.productId)};
      assert Coherent(s) ==> Coherent(Store(s.db[id := updated], cache)) by {
        if Coherent(s) { EvictRowKeepsCoherent(s, id, s.db[id := updated]); }
      }
      Outcome(Store(s.db[id := updated], cache), Ok(One(updated), false))
  }

  /**
   * `remove`: an unknown review, or one written by another user, is refused
   * and nothing changes. Otherwise the row is deleted, and so are
   * `review:{id}` and the list of its product.
   */
  function RemoveStep(s: Store, id: string, userId: string): (o: Outcome<Store, Review>)
    ensures o.resp.Ok? <==> OwnedBy(s, id, userId)
    ensures o.resp.Err? ==> o.store == s
    ensures OwnedBy(s, id, userId) ==>
      && o.resp == Ok(One(s.db[id]), false)
      && o.store.db == s.db - {id}
      && o.store.cache == s.cache - {ReviewKey(id), ListKey(s.db[id].data.productId)}
      && id !in o.store.db && ReviewKey(id) !in o.store.cache
    ensures Coherent(s) ==> Coherent(o.store)
  {
    if id !in s.db then Outcome(s, Err(BadRequest))
    else if s.db[id].data.userId != userId then Outcome(s, Err(BadRequest))
    else
      var before := s.db[id];
      var cache := Del(Del(s.cache, ReviewKey(id)), ListKey(before.data.productId));
      assert cache == s.cache - {ReviewKey(id), ListKey(before.data.productId)};
      assert Coherent(s) ==> Coherent(Store(s.db - {id}, cache)) by {
        if Coherent(s) { EvictRowKeepsCoherent(s, id, s.db - {id}); }
      }
      Outcome(Store(s.db - {id}, cache), Ok(One(before), false))
  }

  /** A review can be changed or deleted by the user who wrote it and by nobody else. */
  lemma OnlyOwnerMayWrite(s: Store, id: string, patch: ReviewPatch, owner: string, other: string)
    requires OwnedBy(s, id, owner) && other != owner
    ensures UpdateStep(s, id, patch, other) == Outcome(s, Err(BadRequest))
    ensures RemoveStep(s, id, other) == Outcome(s, Err(BadRequest))
    ensures UpdateStep(s, id, patch, owner).resp.Ok? && RemoveStep(s, id, owner).resp.Ok?
  {
  }

  /**
   * `create` leaves the product's cached list in place, so until it expires
   * `findAll` for that product answers from the cache without the new review.
   */
  lemma CreatedReviewMissingFromCachedList(fmt: Formats, s: Store, input: ReviewSchema.ReviewInput, newId: Option<string>, rows: seq<Review>)
    requires Coherent(s) && ListKey(input.productId) in s.cache && input.productId != ""
    requires CreateStep(fmt, s, input, newId).resp.Ok?
    requires ListsFor(rows, CreateStep(fmt, s, input, newId).store.db, input.productId)
    ensures
      var s1 := CreateStep(fmt, s, input, newId).store;
      var o := FindAllStep(s1, Some(input.productId), Some(rows));
      && o.resp == Ok(s.cache[ListKey(input.productId)].value, true)
      && Review(newId.value, input) !in o.resp.data.items
      && Review(newId.value, input) in rows
  {
    KeysDistinct(newId.value, newId.value, input.productId, input.productId);
  }

  /**
   * An update that moves a review to another product evicts only the old
   * product's list: a cached list of the new product stays, without the review.
   */
  lemma MovedReviewMissingFromNewList(s: Store, id: string, patch: ReviewPatch, userId: string, rows: seq<Review>)
    requires Coherent(s) && OwnedBy(s, id, userId)
    requires patch.productId.Some? && patch.productId.value != "" && patch.productId.value != s.db[id].data.productId
    requires ListKey(patch.productId.value) in s.cache
    requires ListsFor(rows, UpdateStep(s, id, patch, userId).store.db, patch.productId.value)
    ensures
      var p := patch.productId.value;
      var s1 := UpdateStep(s, id, patch, userId).store;
      var o := FindAllStep(s1, Some(p), Some(rows));
      && o.resp == Ok(s.cache[ListKey(p)].value, true)
      && (forall r :: r in o.resp.data.items ==> r.id != id)
      && Apply(s.db[id], patch) in rows
  {
    var p := patch.productId.value;
    KeysDistinct(id, id, p, s.db[id].data.productId);
    var items := s.cache[ListKey(p)].value.items;
    forall r | r in items
      ensures r.id != id
    {
      assert s.db[r.id].data.productId == p;
    }
    var db1 := UpdateStep(s, id, patch, userId).store.db;
    assert id in db1 && db1[id] == Apply(s.db[id], patch);
  }

  /** The service object: the database and the cache it updates in place. */
  class ReviewsService {
    const fmt: Formats
    var db: map<string, Review>
    var cache: Cache

    function State(): Store
      reads this
    {
      Store(db, cache)
    }

    constructor (fmt: Formats, db: map<string, Review>, cache: Cache)
      ensures this.fmt == fmt && State() == Store(db, cache)
    {
      this.fmt := fmt;
      this.db := db;
      this.cache := cache;
    }

    method Create(input: ReviewSchema.ReviewInput, newId: Option<string>) returns (r: Response<Review>)
      modifies this
      ensures Outcome(State(), r) == CreateStep(fmt, old(State()), input, newId)
    {
      if ReviewSchema.Issues(fmt, input) != [] {
        return Err(BadRequest);
      }
      if newId.None? || newId.value in db {
        return Err(BadRequest);
      }
      var review := Review(newId.value, input);
      db := db[review.id := review];
      cache := Set(cache, ReviewKey(review.id), One(review), Some(Ttl));
      r := Ok(One(review), false);
    }

    method FindAll(productId: Option<string>, loaded: Option<seq<Review>>) returns (r: Response<Review>)
      requires productId.Some? && loaded.Some? ==> ListsFor(loaded.value, db, productId.value)
      modifies this
      ensures Outcome(State(), r) == FindAllStep(old(State()), productId, loaded)
    {
      if productId.None? || productId.value == "" {
        return Err(BadRequest);
      }
      var key := ListKey(productId.value);
      if key in cache {
        return Ok(cache[key].value, true);
      }
      if loaded.None? {
        return Err(BadRequest);
      }
      cache := Set(cache, key, Many(loaded.value), Some(Ttl));
      r := Ok(Many(loaded.value), false);
    }

    method FindOne(id: string) returns (r: Response<Review>)
      modifies this
      ensures Outcome(State(), r) == FindOneStep(old(State()), id)
    {
      var key := ReviewKey(id);
      if key in cache {
        return Ok(cache[key].value, true);
      }
      if id !in db {
        return Err(BadRequest);
      }
      var review := db[id];
      cache := Set(cache, key, One(review), Some(Ttl));
      r := Ok(One(review), false);
    }

    method Update(id: string, patch: ReviewPatch, userId: string) returns (r: Response<Review>)
      modifies this
      ensures Outcome(State(), r) == UpdateStep(old(State()), id, patch, userId)
    {
      if id !in db {
        return Err(BadRequest);
      }
      var review := db[id];
      if review.data.userId != userId {
        return Err(BadRequest);
      }
      var updated := Apply(review, patch);
      db := db[id := updated];
      cache := Del(cache, ReviewKey(id));
      cache := Del(cache, ListKey(review.data.productId));
      r := Ok(One(updated), false);
    }

    method Remove(id: string, userId: string) returns (r: Response<Review>)
      modifies this
      ensures Outcome(State(), r) == RemoveStep(old(State()), id, userId)
    {
      if id !in db {
        return Err(BadRequest);
      }
      var review := db[id];
      if review.data.userId != userId {
        return Err(BadRequest);
      }
      db := db - {id};
      cache := Del(cache, ReviewKey(id));
      cache := Del(cache, ListKey(review.data.productId));
      r := Ok(One(review), false);
    }
  }
}
