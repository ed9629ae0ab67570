/**
 * Package `handlers`: the item endpoints over the `db` table, with a Redis cache in
 * front of single-item reads. Redis is a map from key to cached JSON; a request is its
 * method, its path and its body as decoded (`None` when the body is not valid JSON).
 */
module Handlers {
  import opened Wrappers
  import opened Uuids
  import opened Model
  import opened Http
  import opened Db

  datatype Request = Request(verb: string, path: string, body: Option<Item>)

  datatype Body = NoBody | Text(message: string) | JsonBody(json: Json) | JsonList(jsons: seq<Json>)

  datatype Response = Response(status: int, body: Body)

  /** The key an item is cached under: "item:" followed by its identifier. */
  function CacheKey(id: Uuid): (key: string)
    ensures |key| == 41 && key[..5] == "item:" && key[5..] == id
  {
    "item:" + id
  }

  /** Different items never share a cache key. */
  lemma CacheKeyInjective(a: Uuid, b: Uuid)
    ensures CacheKey(a) == CacheKey(b) ==> a == b
  {
    if CacheKey(a) == CacheKey(b) {
      assert a == CacheKey(a)[5..];
    }
  }

  /** The identifier a path names, by `uuid.Parse` (here `parse`) of what follows "/items/". */
  function PathId(path: string, parse: string -> Option<Uuid>): Option<Uuid> {
    parse(TrimPrefix(path, "/items/"))
  }

  const MethodNotAllowed := Response(StatusMethodNotAllowed, Text("Method not allowed"))
  const InvalidUuid := Response(StatusBadRequest, Text("Invalid UUID"))

  function ErrorText(e: DbError): string {
    match e
    case FieldsRequired => "blogname and author are required"
    case ItemNotFound => "item not found"
    case RecordNotFound => "record not found"
    case DuplicateKey => DuplicateKeyText
  }

  class Server {
    const db: ItemTable
    /** The Redis keyspace as far as these handlers use it. */
    var cache: map<string, Json>

    ghost predicate Valid()
      reads this, db
    {
      db.Valid()
    }

    /** Every cached item is the JSON of the row stored under its identifier now. */
    ghost predicate Coherent()
      reads this, db
    {
      forall id: Uuid :: CacheKey(id) in cache ==>
        id in db.rows && cache[CacheKey(id)] == Marshal(db.rows[id])
    }

    constructor (db: ItemTable)
      requires db.Valid()
      ensures this.db == db && cache == map[]
      ensures Valid() && Coherent()
    {
      this.db := db;
      cache := map[];
    }

    /** `CreateItemHandler`: POST only; inserts the decoded item and answers 201 with it. */
    method CreateItemHandler(req: Request, freshId: Uuid) returns (resp: Response)
      requires Valid()
      requires freshId != Nil && freshId !in db.rows
      modifies db
      ensures Valid() && cache == old(cache)
      ensures req.verb != "POST" ==> resp == MethodNotAllowed && db.rows == old(db.rows)
      ensures req.verb == "POST" && req.body.None? ==>
        resp.status == StatusBadRequest && db.rows == old(db.rows)
      ensures resp.status == StatusCreated <==>
        && req.verb == "POST" && req.body.Some? && HasRequiredFields(req.body.value)
        && AssignedId(req.body.value, freshId) !in old(db.rows)
      ensures resp.status == StatusCreated ==>
        var saved := req.body.value.(id := AssignedId(req.body.value, freshId));
        && resp.body == JsonBody(Marshal(saved))
        && db.rows == old(db.rows)[saved.id := saved]
      ensures resp.status != StatusCreated ==> db.rows == old(db.rows)
      ensures req.verb == "POST" && req.body.Some? && !HasRequiredFields(req.body.value) ==>
        resp == Response(StatusInternalServerError, Text(ErrorText(FieldsRequired)))
      ensures req.verb == "POST" && req.body.Some? && HasRequiredFields(req.body.value)
              && AssignedId(req.body.value, freshId) in old(db.rows) ==>
        resp == Response(StatusInternalServerError, Text(ErrorText(DuplicateKey)))
      ensures old(Coherent()) ==> Coherent()
    {
      if req.verb != "POST" {
        return MethodNotAllowed;
      }
      if req.body.None? {
        return Response(StatusBadRequest, Text("invalid JSON body"));
      }
      var saved, err := db.CreateItem(req.body.value, freshId);
      if err.Some? {
        return Response(StatusInternalServerError, Text(ErrorText(err.value)));
      }
      resp := Response(StatusCreated, JsonBody(Marshal(saved)));
    }

    /** `GetAllItemsHandler`: GET only; every stored item, uncached. */
    method GetAllItemsHandler(req: Request) returns (resp: Response)
      requires Valid()
      ensures req.verb != "GET" ==> resp == MethodNotAllowed
      ensures req.verb == "GET" ==>
        && resp.status == StatusOK && resp.body.JsonList?
        && |resp.body.jsons| == |db.rows|
        && (forall id :: id in db.rows ==> Marshal(db.rows[id]) in resp.body.jsons)
    {
      if req.verb != "GET" {
        return MethodNotAllowed;
      }
      var items := db.GetAllItems();
      var jsons := seq(|items|, i requires 0 <= i < |items| => Marshal(items[i]));
      forall id | id in db.rows
        ensures Marshal(db.rows[id]) in jsons
      {
        var i :| 0 <= i < |items| && items[i] == db.rows[id];
        assert jsons[i] == Marshal(db.rows[id]);
      }
      resp := Response(StatusOK, JsonList(jsons));
    }

    /**
     * `GetItemByIDHandler`: GET only; a cache hit is answered from the cache without
     * reading the table; on a miss a present row is answered and cached, an absent one
     * is 404 and caches nothing.
     */
    method GetItemByIDHandler(req: Request, parse: string -> Option<Uuid>) returns (resp: Response)
      requires Valid()
      modifies this
      ensures Valid() && db.rows == old(db.rows)
      ensures req.verb != "GET" ==> resp == MethodNotAllowed && cache == old(cache)
      ensures req.verb == "GET" && PathId(req.path, parse).None? ==>
        resp == InvalidUuid && cache == old(cache)
      ensures req.verb == "GET" && PathId(req.path, parse).Some? ==>
        var key := CacheKey(PathId(req.path, parse).value);
        var id := PathId(req.path, parse).value;
        && (key in old(cache) ==> resp == Response(StatusOK, JsonBody(old(cache)[key])) && cache == old(cache))
        && (key !in old(cache) && id in db.rows ==>
              && resp == Response(StatusOK, JsonBody(Marshal(db.rows[id])))
              && cache == old(cache)[key := Marshal(db.rows[id])])
        && (key !in old(cache) && id !in db.rows ==>
              resp == Response(StatusNotFound, Text("Item not found")) && cache == old(cache))
      ensures old(Coherent()) ==> Coherent()
      // With a coherent cache, a read answers exactly what the table holds now.
      ensures old(Coherent()) && req.verb == "GET" && PathId(req.path, parse).Some? ==>
        var id := PathId(req.path, parse).value;
        && (resp.status == StatusOK <==> id in db.rows)
        && (id in db.rows ==> resp.body == JsonBody(Marshal(db.rows[id])))
    {
      if req.verb != "GET" {
        return MethodNotAllowed;
      }
      var parsed := PathId(req.path, parse);
      if parsed.None? {
        return InvalidUuid;
      }
      var id := parsed.value;
      var key := CacheKey(id);
      if key in cache {
        return Response(StatusOK, JsonBody(cache[key]));
      }
      var found := db.GetItemByID(id);
      if found.Err? {
        // The only lookup error is gorm's "record not found".
        return Response(StatusNotFound, Text("Item not found"));
      }
      var itemJson := Marshal(found.value);
      cache := cache[key := itemJson];
      resp := Response(StatusOK, JsonBody(itemJson));
      forall other: Uuid | CacheKey(other) in cache && old(Coherent())
        ensures other in db.rows && cache[CacheKey(other)] == Marshal(db.rows[other])
      {
        CacheKeyInjective(other, id);
      }
    }

    /**
     * `UpdateItemHandler`: PUT only; the path's identifier replaces the body's, the row
     * is merged, and only then is the cached copy dropped. It answers with the request
     * item, not the merged row.
     */
    method UpdateItemHandler(req: Request, parse: string -> Option<Uuid>) returns (resp: Response)
      requires Valid()
      modifies this, db
      ensures Valid()
      ensures req.verb != "PUT" ==>
        resp == MethodNotAllowed && cache == old(cache) && db.rows == old(db.rows)
      ensures req.verb == "PUT" && PathId(req.path, parse).None? ==>
        resp == InvalidUuid && cache == old(cache) && db.rows == old(db.rows)
      ensures req.verb == "PUT" && PathId(req.path, parse).Some? && req.body.None? ==>
        resp.status == StatusBadRequest && cache == old(cache) && db.rows == old(db.rows)
      ensures req.verb == "PUT" && PathId(req.path, parse).Some? && req.body.Some? ==>
        var item := req.body.value.(id := PathId(req.path, parse).value);
        if HasRequiredFields(item) && item.id in old(db.rows) then
          && resp == Response(StatusOK, JsonBody(Marshal(item)))
          && db.rows == old(db.rows)[item.id := Merged(old(db.rows)[item.id], item)]
          && cache == old(cache) - {CacheKey(item.id)}
        else
          && resp.status == StatusInternalServerError
          && db.rows == old(db.rows) && cache == old(cache)
      ensures old(Coherent()) ==> Coherent()
    {
      if req.verb != "PUT" {
        return MethodNotAllowed;
      }
      var parsed := PathId(req.path, parse);
      if parsed.None? {
        return InvalidUuid;
      }
      if req.body.None? {
        return Response(StatusBadRequest, Text("invalid JSON body"));
      }
      var item := req.body.value.(id := parsed.value);
      var err := db.UpdateItem(item);
      if err.Some? {
        return Response(StatusInternalServerError, Text(ErrorText(err.value)));
      }
      cache := cache - {CacheKey(item.id)};
      resp := Response(StatusOK, JsonBody(Marshal(item)));
      forall other: Uuid | CacheKey(other) in cache && old(Coherent())
        ensures other in db.rows && cache[CacheKey(other)] == Marshal(db.rows[other])
      {
        CacheKeyInjective(other, item.id);
      }
    }

    /** `DeleteItemByIDHandler`: DELETE only; removes the row, then its cached copy. */
    method DeleteItemByIDHandler(req: Request, parse: string -> Option<Uuid>) returns (resp: Response)
      requires Valid()
      modifies this, db
      ensures Valid()
      ensures req.verb != "DELETE" ==>
        resp == MethodNotAllowed && cache == old(cache) && db.rows == old(db.rows)
      ensures req.verb == "DELETE" && PathId(req.path, parse).None? ==>
        resp == InvalidUuid && cache == old(cache) && db.rows == old(db.rows)
      ensures req.verb == "DELETE" && PathId(req.path, parse).Some? ==>
        var id := PathId(req.path, parse).value;
        && resp == Response(StatusOK, NoBody)
        && db.rows == old(db.rows) - {id}
        && cache == old(cache) - {CacheKey(id)}
      ensures old(Coherent()) ==> Coherent()
    {
      if req.verb != "DELETE" {
        return MethodNotAllowed;
      }
      var parsed := PathId(req.path, parse);
      if parsed.None? {
        return InvalidUuid;
      }
      var id := parsed.value;
      var _ := db.DeleteItemByID(id);  // cannot fail on an in-memory table
      cache := cache - {CacheKey(id)};
      resp := Response(StatusOK, NoBody);
      forall other: Uuid | CacheKey(other) in cache && old(Coherent())
        ensures other in db.rows && cache[CacheKey(other)] == Marshal(db.rows[other])
      {
        CacheKeyInjective(other, id);
      }
    }

    /**
     * `DeleteAllItemsHandler` as written: DELETE only; empties the table and leaves
     * every cached item in place.
     */
    method DeleteAllItemsHandler(req: Request) returns (resp: Response)
      requires Valid()
      modifies db
      ensures Valid() && cache == old(cache)
      ensures req.verb != "DELETE" ==> resp == MethodNotAllowed && db.rows == old(db.rows)
      ensures req.verb == "DELETE" ==> resp == Response(StatusOK, NoBody) && db.rows == map[]
    {
      if req.verb != "DELETE" {
        return MethodNotAllowed;
      }
      var _ := db.DeleteAllItems();  // cannot fail on an in-memory table
      resp := Response(StatusOK, NoBody);
    }

    /**
     * `DeleteAllItemsHandler` as the other write paths do it: after emptying the table
     * it drops the cached copy of every row that was deleted, and so keeps the cache
     * coherent.
     */
    method DeleteAllItemsInvalidating(req: Request) returns (resp: Response)
      requires Valid()
      modifies this, db
      ensures Valid()
      ensures req.verb != "DELETE" ==>
        resp == MethodNotAllowed && db.rows == old(db.rows) && cache == old(cache)
      ensures req.verb == "DELETE" ==>
        && resp == Response(StatusOK, NoBody) && db.rows == map[]
        && cache == old(cache) - set id | id in old(db.rows) :: CacheKey(id)
      ensures old(Coherent()) ==> Coherent()
    {
      if req.verb != "DELETE" {
        return MethodNotAllowed;
      }
      var deleted := db.rows.Keys;
      ghost var before := cache;
      var _ := db.DeleteAllItems();  // cannot fail on an in-memory table
      cache := cache - set id | id in deleted :: CacheKey(id);
      resp := Response(StatusOK, NoBody);
      forall other: Uuid | old(Coherent())
        ensures CacheKey(other) !in cache
      {
        assert CacheKey(other) in cache ==> CacheKey(other) in before && other !in deleted;
      }
    }
  }

  /** `uuid.Parse` restricted to the canonical text form, for the scenarios below. */
  function CanonicalParse(s: string): (r: Option<Uuid>)
    ensures r.Some? ==> r.value == s
  {
    if IsCanonical(s) then Some(s) else None
  }

  lemma ItemPathNamesItem(id: Uuid)
    ensures PathId("/items/" + id, CanonicalParse) == Some(id)
  {
    assert ("/items/" + id)[|"/items/"|..] == id;
  }

  /**
   * Create an item, read it (filling the cache), delete all items, read it again: the
   * second read still answers 200 with the deleted item, served from the cache.
   */
  method StaleReadAfterDeleteAll(item: Item) returns (first: Response, second: Response, stored: map<Uuid, Item>)
    requires HasRequiredFields(item) && item.id != Nil
    ensures first == Response(StatusOK, JsonBody(Marshal(item)))
    ensures second == first && stored == map[]
  {
    var table := new ItemTable();
    var server := new Server(table);
    var _ := server.CreateItemHandler(Request("POST", "/items", Some(item)), OneId);
    ItemPathNamesItem(item.id);
    var path := "/items/" + item.id;
    first := server.GetItemByIDHandler(Request("GET", path, None), CanonicalParse);
    var _ := server.DeleteAllItemsHandler(Request("DELETE", "/items", None));
    second := server.GetItemByIDHandler(Request("GET", path, None), CanonicalParse);
    stored := table.rows;
  }

  /** The same sequence with the invalidating delete-all: the second read is 404. */
  method FreshReadAfterDeleteAll(item: Item) returns (first: Response, second: Response)
    requires HasRequiredFields(item) && item.id != Nil
    ensures first == Response(StatusOK, JsonBody(Marshal(item)))
    ensures second == Response(StatusNotFound, Text("Item not found"))
  {
    var table := new ItemTable();
    var server := new Server(table);
    var _ := server.CreateItemHandler(Request("POST", "/items", Some(item)), OneId);
    ItemPathNamesItem(item.id);
    var path := "/items/" + item.id;
    first := server.GetItemByIDHandler(Request("GET", path, None), CanonicalParse);
    var _ := server.DeleteAllItemsInvalidating(Request("DELETE", "/items", None));
    second := server.GetItemByIDHandler(Request("GET", path, None), CanonicalParse);
  }

  /** A non-nil identifier for `uuid.New()` to return; unused when the item has one. */
  const OneId: Uuid := "00000000-0000-0000-0000-000000000001"
}
