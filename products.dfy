/**
 * ProductsService: the product handlers over the database (a map from id to
 * product) and the key-value cache. Each handler is a step function on a
 * `Store` value, and `ProductsService` runs the same steps in place.
 */
module Products {
  import opened Base
  import opened Text
  import opened Zod
  import opened Redis
  import opened Responses
  import ProductSchema

  datatype Product = Product(id: string, data: ProductSchema.ProductInput)

  /** A partial update: the fields to overwrite (the body is not validated). */
  datatype ProductPatch = ProductPatch(
    name: Option<string>,
    image: Option<string>,
    description: Option<string>,
    price: Option<real>,
    rating: Option<real>,
    stock: Option<real>,
    categoryId: Option<string>)

  /** The patch that names no field. */
  const NoChange: ProductPatch := ProductPatch(None, None, None, None, None, None, None)

  /**
   * The row the database holds after `update` with `patch`: each field the
   * patch names is overwritten, the id and the timestamps are kept.
   */
  function Apply(p: Product, patch: ProductPatch): (r: Product)
    ensures r.id == p.id
    ensures r.data.createdAt == p.data.createdAt && r.data.updatedAt == p.data.updatedAt
    ensures patch.name.Some? ==> r.data.name == patch.name.value
    ensures patch.name.None? ==> r.data.name == p.data.name
    ensures patch.image.Some? ==> r.data.image == patch.image.value
    ensures patch.image.None? ==> r.data.image == p.data.image
    ensures patch.description.Some? ==> r.data.description == patch.description.value
    ensures patch.description.None? ==> r.data.description == p.data.description
    ensures patch.price.Some? ==> r.data.price == patch.price.value
    ensures patch.price.None? ==> r.data.price == p.data.price
    ensures patch.rating.Some? ==> r.data.rating == patch.rating.value
    ensures patch.rating.None? ==> r.data.rating == p.data.rating
    ensures patch.stock.Some? ==> r.data.stock == patch.stock.value
    ensures patch.stock.None? ==> r.data.stock == p.data.stock
    ensures patch.categoryId.Some? ==> r.data.categoryId == patch.categoryId.value
    ensures patch.categoryId.None? ==> r.data.categoryId == p.data.categoryId
    ensures patch == NoChange ==> r == p
  {
    Product(p.id, p.data.(
      name := Pick(p.data.name, patch.name),
      image := Pick(p.data.image, patch.image),
      description := Pick(p.data.description, patch.description),
      price := Pick(p.data.price, patch.price),
      rating := Pick(p.data.rating, patch.rating),
      stock := Pick(p.data.stock, patch.stock),
      categoryId := Pick(p.data.categoryId, patch.categoryId)))
  }

  /** Updating twice with the same patch gives the row of one update. */
  lemma ApplyIdempotent(p: Product, patch: ProductPatch)
    ensures Apply(Apply(p, patch), patch) == Apply(p, patch)
  {
  }

  type Cache = map<string, Entry<Payload<Product>>>

  datatype Store = Store(db: map<string, Product>, cache: Cache)

  /** Expiry of a single product entry, in seconds. */
  const EntityTtl: nat := 600
  /** Expiry of a cached product list, in seconds. */
  const ListTtl: nat := 3600
  /** The one key `create` deletes. */
  const CreateEvicts: string := "products"
  /** The literal key `update` and `remove` delete. */
  const WriteEvicts: string := "products:*"

  /** `product:${id}` */
  function ProductKey(id: string): (k: string)
    ensures |k| == 8 + |id| && k[7] == ':' && k[8..] == id
  {
    "product:" + id
  }

  /** The query parameters of `findAll`, each possibly undefined. */
  datatype ProductQuery = ProductQuery(
    categoryId: Option<string>,
    search: Option<string>,
    price: Option<string>,
    rating: Option<string>,
    take: Option<int>,
    skip: Option<int>)

  /** A string parameter that renders as "all": undefined, empty, or the word itself. */
  predicate BlankText(x: Option<string>)
  {
    x.None? || x.value == "" || x.value == "all"
  }

  /** A number parameter that renders as "all": undefined or 0. */
  predicate BlankNumber(x: Option<int>)
  {
    x.None? || x.value == 0
  }

  /** `${x || 'all'}` for a string parameter. */
  function TextSlot(x: Option<string>): (s: string)
    ensures |s| > 0
    ensures s == "all" <==> BlankText(x)
  {
    if x.None? || x.value == "" then "all" else x.value
  }

  /** `${x || 'all'}` for a number parameter. */
  function NumberSlot(x: Option<int>): (s: string)
    ensures |s| > 0 && ':' !in s
    ensures s == "all" <==> BlankNumber(x)
  {
    if x.None? || x.value == 0 then "all"
    else
      var s := IntDecimal(x.value);
      assert s != "all" by { assert s[0] != 'a'; }
      s
  }

  /** The six fields of the list key, in template order; none is ever empty. */
  function Slots(q: ProductQuery): (slots: seq<string>)
    ensures |slots| == 6
    ensures forall i :: 0 <= i < 6 ==> |slots[i]| > 0
  {
    [TextSlot(q.categoryId), TextSlot(q.search), TextSlot(q.price), TextSlot(q.rating),
     NumberSlot(q.take), NumberSlot(q.skip)]
  }

  /** The text every `findAll` key starts with. */
  const ListPrefix: string := "products:"

  lemma ListPrefixColons()
    ensures Count(':', ListPrefix) >= 1
  {
    assert ListPrefix == "products" + ":";
    CountAppend(':', "products", ":");
  }

  /** The cache key of `findAll`: "products:" and the six parameters joined by ':'. */
  function ListKey(q: ProductQuery): (k: string)
    ensures |k| >= 20 && k[..9] == ListPrefix
    ensures Count(':', k) >= 6
    ensures k != CreateEvicts && k != WriteEvicts
    ensures forall id :: k != ProductKey(id)
  {
    var body := ColonJoin(Slots(q));
    ColonJoinCount(Slots(q));
    ColonJoinLength(Slots(q));
    var k := ListPrefix + body;
    CountAppend(':', ListPrefix, body);
    ListPrefixColons();
    PrefixOfAppend(ListPrefix, body);
    assert k[7] == 's';
    k
  }

  /** None of the four string parameters contains ':' (the two numbers never do). */
  predicate ColonFree(q: ProductQuery)
  {
    && (q.categoryId.Some? ==> ':' !in q.categoryId.value)
    && (q.search.Some? ==> ':' !in q.search.value)
    && (q.price.Some? ==> ':' !in q.price.value)
    && (q.rating.Some? ==> ':' !in q.rating.value)
  }

  predicate SameText(x: Option<string>, y: Option<string>)
  {
    (BlankText(x) && BlankText(y)) || (x.Some? && y.Some? && x.value == y.value)
  }

  predicate SameNumber(x: Option<int>, y: Option<int>)
  {
    (BlankNumber(x) && BlankNumber(y)) || x == y
  }

  /** Two queries whose parameters agree once "all", "" and undefined (and 0 for numbers) are merged. */
  predicate SameQuery(q1: ProductQuery, q2: ProductQuery)
  {
    && SameText(q1.categoryId, q2.categoryId)
    && SameText(q1.search, q2.search)
    && SameText(q1.price, q2.price)
    && SameText(q1.rating, q2.rating)
    && SameNumber(q1.take, q2.take)
    && SameNumber(q1.skip, q2.skip)
  }

  lemma TextSlotEquality(x: Option<string>, y: Option<string>)
    ensures TextSlot(x) == TextSlot(y) <==> SameText(x, y)
  {
  }

  lemma NumberSlotEquality(x: Option<int>, y: Option<int>)
    ensures NumberSlot(x) == NumberSlot(y) <==> SameNumber(x, y)
  {
    if x.Some? && y.Some? && x.value != 0 && y.value != 0 {
      IntDecimalInjective(x.value, y.value);
    }
  }

  lemma SlotsEquality(q1: ProductQuery, q2: ProductQuery)
    ensures Slots(q1) == Slots(q2) <==> SameQuery(q1, q2)
  {
    var f, g := Slots(q1), Slots(q2);
    TextSlotEquality(q1.categoryId, q2.categoryId);
    TextSlotEquality(q1.search, q2.search);
    TextSlotEquality(q1.price, q2.price);
    TextSlotEquality(q1.rating, q2.rating);
    NumberSlotEquality(q1.take, q2.take);
    NumberSlotEquality(q1.skip, q2.skip);
    if SameQuery(q1, q2) {
      assert forall i :: 0 <= i < 6 ==> f[i] == g[i];
    }
  }

  lemma ColonFreeSlots(q: ProductQuery)
    requires ColonFree(q)
    ensures forall i :: 0 <= i < 6 ==> ':' !in Slots(q)[i]
  {
    assert ':' !in "all";
  }

  /**
   * For colon-free parameters the key identifies the query exactly up to the
   * merging of falsy values with "all": two queries share a key if and only if
   * they are the same query in that sense.
   */
  lemma ListKeyIdentifiesQuery(q1: ProductQuery, q2: ProductQuery)
    requires ColonFree(q1) && ColonFree(q2)
    ensures ListKey(q1) == ListKey(q2) <==> SameQuery(q1, q2)
  {
    var f, g := Slots(q1), Slots(q2);
    ColonFreeSlots(q1);
    ColonFreeSlots(q2);
    ColonJoinInjective(f, g);
    if ListKey(q1) == ListKey(q2) {
      assert ColonJoin(f) == ListKey(q1)[9..] == ListKey(q2)[9..] == ColonJoin(g);
    }
    SlotsEquality(q1, q2);
  }

  /** A search for the word "all" reads the list cached for no search at all. */
  lemma SearchAllCollides(q: ProductQuery)
    ensures ListKey(q.(search := Some("all"))) == ListKey(q.(search := None))
  {
  }

  /** `take` and `skip` of 0 read the list cached for absent pagination. */
  lemma ZeroPaginationCollides(q: ProductQuery)
    ensures ListKey(q.(take := Some(0), skip := Some(0))) == ListKey(q.(take := None, skip := None))
  {
  }

  /** A ':' inside a parameter shifts the fields: these two different queries share one key. */
  lemma ColonCollides()
    ensures ListKey(ProductQuery(None, Some("a:b"), None, None, None, None))
         == ListKey(ProductQuery(Some("all:a"), Some("b"), None, None, None, None))
  {
    var rest := ["all", "all", "all", "all"];
    assert Slots(ProductQuery(None, Some("a:b"), None, None, None, None)) == ["all", "a:b"] + rest;
    assert Slots(ProductQuery(Some("all:a"), Some("b"), None, None, None, None)) == ["all:a", "b"] + rest;
    JoinSameHead("all", "a:b", "all:a", "b", rest);
  }

  /** Every cached `product:{id}` entry holds exactly the database row of `id`. */
  ghost predicate Coherent(s: Store)
  {
    forall id {:trigger ProductKey(id)} :: ProductKey(id) in s.cache ==> id in s.db && s.cache[ProductKey(id)].value == One(s.db[id])
  }

  /** Every product in a cached list is a current database row. */
  ghost predicate ListsSound(s: Store)
  {
    forall q :: ListKey(q) in s.cache ==>
      && s.cache[ListKey(q)].value.Many?
      && forall p :: p in s.cache[ListKey(q)].value.items ==> p.id in s.db && s.db[p.id] == p
  }

  /** Every list entry present before is still present, unchanged. */
  ghost predicate ListsKept(before: Cache, after: Cache)
  {
    forall q :: ListKey(q) in before ==> ListKey(q) in after && after[ListKey(q)] == before[ListKey(q)]
  }

  /** A change confined to keys that no `findAll` builds keeps every list entry. */
  lemma KeptOutsideLists(before: Cache, after: Cache, keys: set<string>)
    requires ChangedOnly(before, after, keys)
    requires forall q :: ListKey(q) !in keys
    ensures ListsKept(before, after)
  {
  }

  /** Caching a new row under its own key, and deleting "products", keeps the cache coherent. */
  lemma CacheNewRowKeepsCoherent(s: Store, p: Product, cache: Cache)
    requires p.id !in s.db && Coherent(s)
    requires cache == Del(Set(s.cache, ProductKey(p.id), One(p), Some(EntityTtl)), CreateEvicts)
    ensures Coherent(Store(s.db[p.id := p], cache))
  {
    var db := s.db[p.id := p];
    forall id | ProductKey(id) in cache
      ensures id in db && cache[ProductKey(id)].value == One(db[id])
    {
      var k := ProductKey(id);
      if id == p.id {
        assert cache[k] == Entry(One(p), Some(EntityTtl));
      } else {
        assert k != ProductKey(p.id) by {
          assert k[8..] != ProductKey(p.id)[8..];
        }
        assert k in s.cache && cache[k] == s.cache[k];
      }
    }
  }

  /** The rows are database rows (a `findMany` answer). */
  ghost predicate FromDb(db: map<string, Product>, rows: seq<Product>)
  {
    forall p :: p in rows ==> p.id in db && db[p.id] == p
  }

  /**
   * `create`: validate, insert under the id the database assigns (`newId`, None when
   * the database refuses the row), cache the new product, delete the key "products".
   */
  function CreateStep(fmt: Formats, s: Store, input: ProductSchema.ProductInput, newId: Option<string>)
    : (o: Outcome<Store, Product>)
    ensures o.resp.Ok? <==> ProductSchema.Valid(fmt, input) && newId.Some? && newId.value !in s.db
    ensures o.resp.Err? ==> o.store == s
    ensures o.resp.Ok? ==>
      var p := Product(newId.value, input);
      && o.resp == Ok(One(p), false)
      && o.store.db == s.db[p.id := p]
      && ProductKey(p.id) in o.store.cache
      && o.store.cache[ProductKey(p.id)] == Entry(One(p), Some(EntityTtl))
      && CreateEvicts !in o.store.cache
      && ChangedOnly(s.cache, o.store.cache, {ProductKey(p.id), CreateEvicts})
    ensures ListsKept(s.cache, o.store.cache)
    ensures Coherent(s) ==> Coherent(o.store)
  {
    if ProductSchema.Issues(fmt, input) != [] then Outcome(s, Err(BadRequest))
    else if newId.None? || newId.value in s.db then Outcome(s, Err(BadRequest))
    else
      var p := Product(newId.value, input);
      var cache := Del(Set(s.cache, ProductKey(p.id), One(p), Some(EntityTtl)), CreateEvicts);
      assert ChangedOnly(s.cache, cache, {ProductKey(p.id), CreateEvicts});
      KeptOutsideLists(s.cache, cache, {ProductKey(p.id), CreateEvicts});
      assert Coherent(s) ==> Coherent(Store(s.db[p.id := p], cache)) by {
        if Coherent(s) { CacheNewRowKeepsCoherent(s, p, cache); }
      }
      Outcome(Store(s.db[p.id := p], cache), Ok(One(p), false))
  }

  /**
   * `findAll`: a hit answers from the cache; a miss stores what the database
   * returned (`loaded`, None when the query failed) under the same key for an hour.
   */
  function FindAllStep(s: Store, q: ProductQuery, loaded: Option<seq<Product>>): (o: Outcome<Store, Product>)
    ensures ListKey(q) in s.cache ==> o == Outcome(s, Ok(s.cache[ListKey(q)].value, true))
    ensures ListKey(q) !in s.cache ==> (o.resp.Ok? <==> loaded.Some?)
    ensures o.resp.Err? ==> o.store == s
    ensures ListKey(q) !in s.cache && loaded.Some? ==>
      && o.resp == Ok(Many(loaded.value), false)
      && o.store.db == s.db
      && ListKey(q) in o.store.cache
      && o.store.cache[ListKey(q)] == Entry(Many(loaded.value), Some(ListTtl))
      && ChangedOnly(s.cache, o.store.cache, {ListKey(q)})
    ensures Coherent(s) ==> Coherent(o.store)
    ensures ListsSound(s) && (loaded.Some? ==> FromDb(s.db, loaded.value)) ==> ListsSound(o.store)
  {
    var key := ListKey(q);
    if key in s.cache then Outcome(s, Ok(s.cache[key].value, true))
    else if loaded.None? then Outcome(s, Err(BadRequest))
    else Outcome(Store(s.db, Set(s.cache, key, Many(loaded.value), Some(ListTtl))), Ok(Many(loaded.value), false))
  }

  /**
   * `findOne`: a hit answers from the cache without reading the database; a miss
   * reads the row, refuses an unknown id, and caches the row for ten minutes.
   */
  function FindOneStep(s: Store, id: string): (o: Outcome<Store, Product>)
    ensures ProductKey(id) in s.cache ==> o == Outcome(s, Ok(s.cache[ProductKey(id)].value, true))
    ensures ProductKey(id) !in s.cache && id !in s.db ==> o == Outcome(s, Err(BadRequest))
    ensures ProductKey(id) !in s.cache && id in s.db ==>
      && o.resp == Ok(One(s.db[id]), false)
      && o.store.db == s.db
      && ProductKey(id) in o.store.cache
      && o.store.cache[ProductKey(id)] == Entry(One(s.db[id]), Some(EntityTtl))
      && ChangedOnly(s.cache, o.store.cache, {ProductKey(id)})
    ensures Coherent(s) ==>
      && Coherent(o.store)
      && (o.resp.Ok? <==> id in s.db)
      && (o.resp.Ok? ==> o.resp.data == One(s.db[id]))
    ensures ListsSound(s) ==> ListsSound(o.store)
  {
    var key := ProductKey(id);
    if key in s.cache then Outcome(s, Ok(s.cache[key].value, true))
    else if id !in s.db then Outcome(s, Err(BadRequest))
    else Outcome(Store(s.db, Set(s.cache, key, One(s.db[id]), Some(EntityTtl))), Ok(One(s.db[id]), false))
  }

  /**
   * `update`: the database update fails for an unknown id; on success exactly
   * `product:{id}` and the literal "products:*" are deleted.
   */
  function UpdateStep(s: Store, id: string, patch: ProductPatch): (o: Outcome<Store, Product>)
    ensures o.resp.Ok? <==> id in s.db
    ensures o.resp.Err? ==> o.store == s
    ensures id in s.db ==>
      && o.resp == Ok(One(Apply(s.db[id], patch)), false)
      && o.store.db == s.db[id := Apply(s.db[id], patch)]
      && o.store.cache == s.cache - {ProductKey(id), WriteEvicts}
    ensures ListsKept(s.cache, o.store.cache)
    ensures Coherent(s) ==> Coherent(o.store)
  {
    if id !in s.db then Outcome(s, Err(BadRequest))
    else
      var p := Apply(s.db[id], patch);
      var cache := Del(Del(s.cache, ProductKey(id)), WriteEvicts);
      assert cache == s.cache - {ProductKey(id), WriteEvicts};
      Outcome(Store(s.db[id := p], cache), Ok(One(p), false))
  }

  /**
   * `remove`: the database delete fails for an unknown id; on success exactly
   * `product:{id}` and the literal "products:*" are deleted.
   */
  function RemoveStep(s: Store, id: string): (o: Outcome<Store, Product>)
    ensures o.resp.Ok? <==> id in s.db
    ensures o.resp.Err? ==> o.store == s
    ensures id in s.db ==>
      && o.resp == Ok(One(s.db[id]), false)
      && o.store.db == s.db - {id}
      && o.store.cache == s.cache - {ProductKey(id), WriteEvicts}
      && id !in o.store.db && ProductKey(id) !in o.store.cache
    ensures ListsKept(s.cache, o.store.cache)
    ensures Coherent(s) ==> Coherent(o.store)
  {
    if id !in s.db then Outcome(s, Err(BadRequest))
    else
      var cache := Del(Del(s.cache, ProductKey(id)), WriteEvicts);
      assert cache == s.cache - {ProductKey(id), WriteEvicts};
      Outcome(Store(s.db - {id}, cache), Ok(One(s.db[id]), false))
  }

  /**
   * Deleting "products:*" evicts no list: after `remove`, a list cached before
   * still offers the removed product, and the cache stops being sound.
   */
  lemma RemovedProductStaysListed(s: Store, q: ProductQuery, p: Product, loaded: Option<seq<Product>>)
    requires p.id in s.db && s.db[p.id] == p && ListKey(q) !in s.cache
    ensures
      var s1 := FindAllStep(s, q, Some([p])).store;
      var s2 := RemoveStep(s1, p.id).store;
      var o := FindAllStep(s2, q, loaded);
      && p.id !in s2.db
      && o == Outcome(s2, Ok(Many([p]), true))
      && !ListsSound(s2)
  {
  }

  /** Likewise after `update`: the cached list still shows the row as it was. */
  lemma UpdatedProductListedStale(s: Store, q: ProductQuery, p: Product, patch: ProductPatch, loaded: Option<seq<Product>>)
    requires p.id in s.db && s.db[p.id] == p && ListKey(q) !in s.cache
    requires Apply(p, patch) != p
    ensures
      var s1 := FindAllStep(s, q, Some([p])).store;
      var s2 := UpdateStep(s1, p.id, patch).store;
      var o := FindAllStep(s2, q, loaded);
      && s2.db[p.id] != p
      && o == Outcome(s2, Ok(Many([p]), true))
      && !ListsSound(s2)
  {
  }

  /** A read after a write: `findOne` misses and returns the updated row. */
  lemma UpdateThenFindOne(s: Store, id: string, patch: ProductPatch)
    requires id in s.db
    ensures
      var s1 := UpdateStep(s, id, patch).store;
      FindOneStep(s1, id).resp == Ok(One(Apply(s.db[id], patch)), false)
  {
  }

  /** The service object: the database and the cache it updates in place. */
  class ProductsService {
    const fmt: Formats
    var db: map<string, Product>
    var cache: Cache

    function State(): Store
      reads this
    {
      Store(db, cache)
    }

    constructor (fmt: Formats, db: map<string, Product>, cache: Cache)
      ensures this.fmt == fmt && State() == Store(db, cache)
    {
      this.fmt := fmt;
      this.db := db;
      this.cache := cache;
    }

    method Create(input: ProductSchema.ProductInput, newId: Option<string>) returns (r: Response<Product>)
      modifies this
      ensures Outcome(State(), r) == CreateStep(fmt, old(State()), input, newId)
    {
      if ProductSchema.Issues(fmt, input) != [] {
        return Err(BadRequest);
      }
      if newId.None? || newId.value in db {
        return Err(BadRequest);
      }
      var product := Product(newId.value, input);
      db := db[product.id := product];
      cache := Set(cache, ProductKey(product.id), One(product), Some(EntityTtl));
      cache := Del(cache, CreateEvicts);
      r := Ok(One(product), false);
    }

    method FindAll(q: ProductQuery, loaded: Option<seq<Product>>) returns (r: Response<Product>)
      modifies this
      ensures Outcome(State(), r) == FindAllStep(old(State()), q, loaded)
    {
      var key := ListKey(q);
      if key in cache {
        return Ok(cache[key].value, true);
      }
      if loaded.None? {
        return Err(BadRequest);
      }
      cache := Set(cache, key, Many(loaded.value), Some(ListTtl));
      r := Ok(Many(loaded.value), false);
    }

    method FindOne(id: string) returns (r: Response<Product>)
      modifies this
      ensures Outcome(State(), r) == FindOneStep(old(State()), id)
    {
      var key := ProductKey(id);
      if key in cache {
        return Ok(cache[key].value, true);
      }
      if id !in db {
        return Err(BadRequest);
      }
      var product := db[id];
      cache := Set(cache, key, One(product), Some(EntityTtl));
      r := Ok(One(product), false);
    }

    method Update(id: string, patch: ProductPatch) returns (r: Response<Product>)
      modifies this
      ensures Outcome(State(), r) == UpdateStep(old(State()), id, patch)
    {
      if id !in db {
        return Err(BadRequest);
      }
      var product := Apply(db[id], patch);
      db := db[id := product];
      cache := Del(cache, ProductKey(id));
      cache := Del(cache, WriteEvicts);
      r := Ok(One(product), false);
    }

    method Remove(id: string) returns (r: Response<Product>)
      modifies this
      ensures Outcome(State(), r) == RemoveStep(old(State()), id)
    {
      if id !in db {
        return Err(BadRequest);
      }
      var product := db[id];
      db := db - {id};
      cache := Del(cache, ProductKey(id));
      cache := Del(cache, WriteEvicts);
      r := Ok(One(product), false);
    }
  }
}
