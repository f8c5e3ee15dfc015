/**
 * CategoriesService: the category handlers over the database (a map from id
 * to category) and the key-value cache. Each handler is a step function on a
 * `Store` value, and `CategoriesService` runs the same steps in place.
 */
module Categories {
  import opened Base
  import opened Zod
  import opened Redis
  import opened Responses
  import CategorySchema

  datatype Category = Category(id: string, data: CategorySchema.CategoryInput)

  /** A partial update: the fields to overwrite (the body is not validated). */
  datatype CategoryPatch = CategoryPatch(name: Option<string>, image: Option<string>, description: Option<string>)

  /** The patch that names no field. */
  const NoChange: CategoryPatch := CategoryPatch(None, None, None)

  /**
   * The row the database holds after `update` with `patch`: each field the
   * patch names is overwritten, the id and the timestamps are kept.
   */
  function Apply(c: Category, patch: CategoryPatch): (r: Category)
    ensures r.id == c.id
    ensures r.data.createdAt == c.data.createdAt && r.data.updatedAt == c.data.updatedAt
    ensures patch.name.Some? ==> r.data.name == patch.name.value
    ensures patch.name.None? ==> r.data.name == c.data.name
    ensures patch.image.Some? ==> r.data.image == patch.image.value
    ensures patch.image.None? ==> r.data.image == c.data.image
    ensures patch.description.Some? ==> r.data.description == patch.description.value
    ensures patch.description.None? ==> r.data.description == c.data.description
    ensures patch == NoChange ==> r == c
  {
    Category(c.id, c.data.(
      name := Pick(c.data.name, patch.name),
      image := Pick(c.data.image, patch.image),
      description := Pick(c.data.description, patch.description)))
  }

  /** Updating twice with the same patch gives the row of one update. */
  lemma ApplyIdempotent(c: Category, patch: CategoryPatch)
    ensures Apply(Apply(c, patch), patch) == Apply(c, patch)
  {
  }

  type Cache = map<string, Entry<Payload<Category>>>

  datatype Store = Store(db: map<string, Category>, cache: Cache)

  /** Expiry `create` gives a single category entry, in seconds. */
  const EntityTtl: nat := 600
  /** Expiry of the cached category list, in seconds. */
  const ListTtl: nat := 3600
  /** The one key under which `findAll` caches every category. */
  const ListKey: string := "categories"

  /** `category:${id}` */
  function CategoryKey(id: string): (k: string)
    ensures |k| == 9 + |id| && k[8] == ':' && k[9..] == id
  {
    "category:" + id
  }

  /** A per-category key is never the list key. */
  lemma CategoryKeyIsNotListKey(id: string)
    ensures CategoryKey(id) != ListKey
  {
    assert CategoryKey(id)[8] != ListKey[8];
  }

  /** `rows` lists the database: each row is current, and every row appears. */
  ghost predicate Lists(rows: seq<Category>, db: map<string, Category>)
  {
    && (forall c :: c in rows ==> c.id in db && db[c.id] == c)
    && (forall id :: id in db ==> db[id] in rows)
  }

  /**
   * Every cached `category:{id}` entry holds exactly the row of `id`, and a
   * cached "categories" list lists the database as it is now.
   */
  ghost predicate Coherent(s: Store)
  {
    && (forall id {:trigger CategoryKey(id)} :: CategoryKey(id) in s.cache ==>
          id in s.db && s.cache[CategoryKey(id)].value == One(s.db[id]))
    && (ListKey in s.cache ==> s.cache[ListKey].value.Many? && Lists(s.cache[ListKey].value.items, s.db))
  }

  /** Caching the new row under its key and deleting the list keeps the cache coherent. */
  lemma CacheNewRowKeepsCoherent(s: Store, c: Category, cache: Cache)
    requires c.id !in s.db && Coherent(s)
    requires cache == Del(Set(s.cache, CategoryKey(c.id), One(c), Some(EntityTtl)), ListKey)
    ensures Coherent(Store(s.db[c.id := c], cache))
  {
    var db := s.db[c.id := c];
    forall id | CategoryKey(id) in cache
      ensures id in db && cache[CategoryKey(id)].value == One(db[id])
    {
      if id != c.id {
        assert CategoryKey(id)[9..] != CategoryKey(c.id)[9..];
      }
    }
  }

  /** Caching a full listing of the database under "categories" keeps the cache coherent. */
  lemma CacheListKeepsCoherent(s: Store, rows: seq<Category>)
    requires Coherent(s) && Lists(rows, s.db)
    ensures Coherent(Store(s.db, Set(s.cache, ListKey, Many(rows), Some(ListTtl))))
  {
    var cache := Set(s.cache, ListKey, Many(rows), Some(ListTtl));
    forall id | CategoryKey(id) in cache
      ensures id in s.db && cache[CategoryKey(id)].value == One(s.db[id])
    {
      CategoryKeyIsNotListKey(id);
    }
  }

  /** Caching the current row of `id` under its own key, with no expiry, keeps the cache coherent. */
  lemma CacheRowKeepsCoherent(s: Store, id: string)
    requires Coherent(s) && id in s.db
    ensures Coherent(Store(s.db, Set(s.cache, CategoryKey(id), One(s.db[id]), None)))
  {
    var cache := Set(s.cache, CategoryKey(id), One(s.db[id]), None);
    CategoryKeyIsNotListKey(id);
    forall x | CategoryKey(x) in cache
      ensures x in s.db && cache[CategoryKey(x)].value == One(s.db[x])
    {
      if x != id {
        assert CategoryKey(x)[9..] != CategoryKey(id)[9..];
      }
    }
  }

  /** Deleting the row's own key and the list keeps the cache coherent, whatever the row became. */
  lemma EvictRowKeepsCoherent(s: Store, id: string, db: map<string, Category>)
    requires Coherent(s) && id in s.db
    requires db == s.db - {id} || (id in db && db == s.db[id := db[id]])
    ensures Coherent(Store(db, s.cache - {CategoryKey(id), ListKey}))
  {
    var cache := s.cache - {CategoryKey(id), ListKey};
    forall x | CategoryKey(x) in cache
      ensures x in db && cache[CategoryKey(x)].value == One(db[x])
    {
      assert x != id;
    }
  }

  /**
   * `create`: validate, insert under the id the database assigns (`newId`, None
   * when the database refuses the row), cache the row for ten minutes and delete
   * the list key.
   */
  function CreateStep(fmt: Formats, s: Store, input: CategorySchema.CategoryInput, newId: Option<string>)
    : (o: Outcome<Store, Category>)
    ensures o.resp.Ok? <==> CategorySchema.Valid(fmt, input) && newId.Some? && newId.value !in s.db
    ensures o.resp.Err? ==> o.store == s
    ensures o.resp.Ok? ==>
      var c := Category(newId.value, input);
      && o.resp == Ok(One(c), false)
      && o.store.db == s.db[c.id := c]
      && o.store.cache == (s.cache - {ListKey})[CategoryKey(c.id) := Entry(One(c), Some(EntityTtl))]
      && ListKey !in o.store.cache
    ensures Coherent(s) ==> Coherent(o.store)
  {
    if CategorySchema.Issues(fmt, input) != [] then Outcome(s, Err(BadRequest))
    else if newId.None? || newId.value in s.db then Outcome(s, Err(BadRequest))
    else
      var c := Category(newId.value, input);
      var cache := Del(Set(s.cache, CategoryKey(c.id), One(c), Some(EntityTtl)), ListKey);
      CategoryKeyIsNotListKey(c.id);
      assert cache == (s.cache - {ListKey})[CategoryKey(c.id) := Entry(One(c), Some(EntityTtl))];
      assert Coherent(s) ==> Coherent(Store(s.db[c.id := c], cache)) by {
        if Coherent(s) { CacheNewRowKeepsCoherent(s, c, cache); }
      }
      Outcome(Store(s.db[c.id := c], cache), Ok(One(c), false))
  }

  /**
   * `findAll`: a hit answers from the "categories" entry; a miss stores what
   * `findMany()` returned (`loaded`, None when the query failed) there for an
   * hour. A failed query answers an error and caches nothing. While the cache
   * is coherent every successful answer lists the database.
   */
  function FindAllStep(s: Store, loaded: Option<seq<Category>>): (o: Outcome<Store, Category>)
    requires loaded.Some? ==> Lists(loaded.value, s.db)
    ensures ListKey in s.cache ==> o == Outcome(s, Ok(s.cache[ListKey].value, true))
    ensures ListKey !in s.cache ==> (o.resp.Ok? <==> loaded.Some?)
    ensures o.resp.Err? ==> o.store == s
    ensures ListKey !in s.cache && loaded.Some? ==>
      && o.resp == Ok(Many(loaded.value), false)
      && o.store == Store(s.db, s.cache[ListKey := Entry(Many(loaded.value), Some(ListTtl))])
    ensures Coherent(s) ==>
      && Coherent(o.store)
      && (o.resp.Ok? ==> o.resp.data.Many? && Lists(o.resp.data.items, s.db))
  {
    if ListKey in s.cache then Outcome(s, Ok(s.cache[ListKey].value, true))
    else if loaded.None? then Outcome(s, Err(BadRequest))
    else
      var cache := Set(s.cache, ListKey, Many(loaded.value), Some(ListTtl));
      assert Coherent(s) ==> Coherent(Store(s.db, cache)) by {
        if Coherent(s) { CacheListKeepsCoherent(s, loaded.value); }
      }
      Outcome(Store(s.db, cache), Ok(Many(loaded.value), false))
  }

  /**
   * `findOne`: a hit answers from the cache; a miss refuses an unknown id, and
   * otherwise caches the row WITHOUT an expiry (unlike the 600 s of `create`).
   */
  function FindOneStep(s: Store, id: string): (o: Outcome<Store, Category>)
    ensures CategoryKey(id) in s.cache ==> o == Outcome(s, Ok(s.cache[CategoryKey(id)].value, true))
    ensures CategoryKey(id) !in s.cache && id !in s.db ==> o == Outcome(s, Err(BadRequest))
    ensures CategoryKey(id) !in s.cache && id in s.db ==>
      && o.resp == Ok(One(s.db[id]), false)
      && o.store == Store(s.db, s.cache[CategoryKey(id) := Entry(One(s.db[id]), None)])
    ensures Coherent(s) ==>
      && Coherent(o.store)
      && (o.resp.Ok? <==> id in s.db)
      && (o.resp.Ok? ==> o.resp.data == One(s.db[id]))
  {
    var key := CategoryKey(id);
    if key in s.cache then Outcome(s, Ok(s.cache[key].value, true))
    else if id !in s.db then Outcome(s, Err(BadRequest))
    else
      var cache := Set(s.cache, key, One(s.db[id]), None);
      assert Coherent(s) ==> Coherent(Store(s.db, cache)) by {
        if Coherent(s) { CacheRowKeepsCoherent(s, id); }
      }
      Outcome(Store(s.db, cache), Ok(One(s.db[id]), false))
  }

  /**
   * `update`: the database update fails for an unknown id, leaving everything
   * as it was; on success exactly `category:{id}` and "categories" are deleted.
   */
  function UpdateStep(s: Store, id: string, patch: CategoryPatch): (o: Outcome<Store, Category>)
    ensures o.resp.Ok? <==> id in s.db
    ensures o.resp.Err? ==> o.store == s
    ensures id in s.db ==>
      && o.resp == Ok(One(Apply(s.db[id], patch)), false)
      && o.store.db == s.db[id := Apply(s.db[id], patch)]
      && o.store.cache == s.cache - {CategoryKey(id), ListKey}
    ensures Coherent(s) ==> Coherent(o.store)
  {
    if id !in s.db then Outcome(s, Err(BadRequest))
    else
      var c := Apply(s.db[id], patch);
      var cache := Del(Del(s.cache, CategoryKey(id)), ListKey);
      assert cache == s.cache - {CategoryKey(id), ListKey};
      assert Coherent(s) ==> Coherent(Store(s.db[id := c], cache)) by {
        if Coherent(s) { EvictRowKeepsCoherent(s, id, s.db[id := c]); }
      }
      Outcome(Store(s.db[id := c], cache), Ok(One(c), false))
  }

  /**
   * `remove`: the database delete fails for an unknown id, leaving everything
   * as it was; on success exactly `category:{id}` and "categories" are deleted.
   */
  function RemoveStep(s: Store, id: string): (o: Outcome<Store, Category>)
    ensures o.resp.Ok? <==> id in s.db
    ensures o.resp.Err? ==> o.store == s
    ensures id in s.db ==>
      && o.resp == Ok(One(s.db[id]), false)
      && o.store.db == s.db - {id}
      && o.store.cache == s.cache - {CategoryKey(id), ListKey}
    ensures Coherent(s) ==> Coherent(o.store)
  {
    if id !in s.db then Outcome(s, Err(BadRequest))
    else
      var cache := Del(Del(s.cache, CategoryKey(id)), ListKey);
      assert cache == s.cache - {CategoryKey(id), ListKey};
      assert Coherent(s) ==> Coherent(Store(s.db - {id}, cache)) by {
        if Coherent(s) { EvictRowKeepsCoherent(s, id, s.db - {id}); }
      }
      Outcome(Store(s.db - {id}, cache), Ok(One(s.db[id]), false))
  }

  /** After a successful `create` the next `findAll` misses and reloads, so it sees the new row. */
  lemma CreateThenFindAllReloads(fmt: Formats, s: Store, input: CategorySchema.CategoryInput, newId: Option<string>, rows: seq<Category>)
    requires CreateStep(fmt, s, input, newId).resp.Ok?
    requires Lists(rows, CreateStep(fmt, s, input, newId).store.db)
    ensures
      var s1 := CreateStep(fmt, s, input, newId).store;
      && FindAllStep(s1, Some(rows)).resp == Ok(Many(rows), false)
      && Category(newId.value, input) in rows
  {
  }

  /**
   * A read right after `create` is a hit on the entry `create` wrote, which
   * expires after 600 s.
   */
  lemma CreateThenFindOneHits(fmt: Formats, s: Store, input: CategorySchema.CategoryInput, newId: Option<string>)
    requires CreateStep(fmt, s, input, newId).resp.Ok?
    ensures
      var s1 := CreateStep(fmt, s, input, newId).store;
      var c := Category(newId.value, input);
      && FindOneStep(s1, c.id) == Outcome(s1, Ok(One(c), true))
      && s1.cache[CategoryKey(c.id)].ttl == Some(600)
  {
  }

  /**
   * A read right after `update` misses and caches the updated row with no
   * expiry, so that entry lasts until the next write to the category.
   */
  lemma UpdateThenFindOneCachesForever(s: Store, id: string, patch: CategoryPatch)
    requires id in s.db
    ensures
      var s1 := UpdateStep(s, id, patch).store;
      var o := FindOneStep(s1, id);
      && o.resp == Ok(One(Apply(s.db[id], patch)), false)
      && o.store.cache[CategoryKey(id)] == Entry(One(Apply(s.db[id], patch)), None)
  {
  }

  /** The service object: the database and the cache it updates in place. */
  class CategoriesService {
    const fmt: Formats
    var db: map<string, Category>
    var cache: Cache

    function State(): Store
      reads this
    {
      Store(db, cache)
    }

    constructor (fmt: Formats, db: map<string, Category>, cache: Cache)
      ensures this.fmt == fmt && State() == Store(db, cache)
    {
      this.fmt := fmt;
      this.db := db;
      this.cache := cache;
    }

    method Create(input: CategorySchema.CategoryInput, newId: Option<string>) returns (r: Response<Category>)
      modifies this
      ensures Outcome(State(), r) == CreateStep(fmt, old(State()), input, newId)
    {
      if CategorySchema.Issues(fmt, input) != [] {
        return Err(BadRequest);
      }
      if newId.None? || newId.value in db {
        return Err(BadRequest);
      }
      var category := Category(newId.value, input);
      db := db[category.id := category];
      cache := Set(cache, CategoryKey(category.id), One(category), Some(EntityTtl));
      cache := Del(cache, ListKey);
      r := Ok(One(category), false);
    }

    method FindAll(loaded: Option<seq<Category>>) returns (r: Response<Category>)
      requires loaded.Some? ==> Lists(loaded.value, db)
      modifies this
      ensures Outcome(State(), r) == FindAllStep(old(State()), loaded)
    {
      if ListKey in cache {
        return Ok(cache[ListKey].value, true);
      }
      if loaded.None? {
        return Err(BadRequest);
      }
      cache := Set(cache, ListKey, Many(loaded.value), Some(ListTtl));
      r := Ok(Many(loaded.value), false);
    }

    method FindOne(id: string) returns (r: Response<Category>)
      modifies this
      ensures Outcome(State(), r) == FindOneStep(old(State()), id)
    {
      var key := CategoryKey(id);
      if key in cache {
        return Ok(cache[key].value, true);
      }
      if id !in db {
        return Err(BadRequest);
      }
      var category := db[id];
      cache := Set(cache, key, One(category), None);
      r := Ok(One(category), false);
    }

    method Update(id: string, patch: CategoryPatch) returns (r: Response<Category>)
      modifies this
      ensures Outcome(State(), r) == UpdateStep(old(State()), id, patch)
    {
      if id !in db {
        return Err(BadRequest);
      }
      var category := Apply(db[id], patch);
      db := db[id := category];
      cache := Del(cache, CategoryKey(id));
      cache := Del(cache, ListKey);
      r := Ok(One(category), false);
    }

    method Remove(id: string) returns (r: Response<Category>)
      modifies this
      ensures Outcome(State(), r) == RemoveStep(old(State()), id)
    {
      if id !in db {
        return Err(BadRequest);
      }
      var category := db[id];
      db := db - {id};
      cache := Del(cache, CategoryKey(id));
      cache := Del(cache, ListKey);
      r := Ok(One(category), false);
    }
  }
}
