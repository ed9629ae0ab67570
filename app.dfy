/**
 * Package `app`: a second, self-contained item service with its own three-field item
 * and its own handlers. A handler returns without touching the table on OPTIONS (the
 * CORS preflight) and checks no other method. A request carries its method, its "id"
 * query parameter and its body as decoded (`None` when the body is not valid JSON).
 */
module App {
  import opened Wrappers
  import opened Uuids
  import opened Http
  import Store

  datatype Item = Item(id: Uuid, blogname: string, author: string)

  datatype AppError = FieldsRequired | RecordNotFound | DuplicateKey

  predicate HasRequiredFields(item: Item) {
    item.blogname != "" && item.author != ""
  }

  function AssignedId(item: Item, freshId: Uuid): Uuid {
    if item.id == Nil then freshId else item.id
  }

  datatype Request = Request(verb: string, idParam: string, body: Option<Item>)

  datatype Body = NoBody | Text(message: string) | ItemBody(item: Item) | ItemList(items: seq<Item>)

  datatype Response = Response(status: int, body: Body)

  /** What an OPTIONS request gets: headers only, and the implicit 200. */
  const Preflight := Response(StatusOK, NoBody)

  const FieldsRequiredText := "blogname and author are required"

  /** The global `DB` connection, reduced to the `items` table it reaches. */
  class ItemStore {
    var rows: map<Uuid, Item>

    ghost predicate Valid()
      reads this
    {
      forall id :: id in rows ==> rows[id].id == id
    }

    constructor ()
      ensures Valid() && rows == map[]
    {
      rows := map[];
    }

    /** `CreateItem`: as in package `db`; a nil ID takes the generated `freshId`. */
    method CreateItem(item: Item, freshId: Uuid) returns (saved: Item, err: Option<AppError>)
      requires Valid()
      requires freshId != Nil && freshId !in rows
      modifies this
      ensures Valid()
      ensures !HasRequiredFields(item) ==> saved == item && err == Some(FieldsRequired)
      ensures HasRequiredFields(item) ==> saved == item.(id := AssignedId(item, freshId))
      ensures HasRequiredFields(item) ==> (err == None <==> saved.id !in old(rows))
      ensures err == None ==> rows == old(rows)[saved.id := saved]
      ensures err != None ==> rows == old(rows)
    {
      if !HasRequiredFields(item) {
        return item, Some(FieldsRequired);
      }
      saved := item.(id := AssignedId(item, freshId));
      if saved.id in rows {
        return saved, Some(DuplicateKey);
      }
      rows := rows[saved.id := saved];
      err := None;
    }

    method GetAllItems() returns (items: seq<Item>)
      requires Valid()
      ensures |items| == |rows|
      ensures forall id :: id in rows ==> rows[id] in items
      ensures forall i :: 0 <= i < |items| ==> items[i].id in rows && rows[items[i].id] == items[i]
      ensures forall i, j :: 0 <= i < j < |items| ==> items[i].id != items[j].id
    {
      ghost var keys;
      items, keys := Store.ListAll(rows);
      forall id | id in rows
        ensures rows[id] in items
      {
        var i :| 0 <= i < |keys| && keys[i] == id;
        assert items[i] == rows[id];
      }
    }

    function GetItemByID(id: Uuid): (r: Result<Item, AppError>)
      requires Valid()
      reads this
      ensures r.Ok? <==> id in rows
      ensures r.Ok? ==> r.value == rows[id] && r.value.id == id
      ensures r.Err? ==> r.error == RecordNotFound
    {
      if id in rows then Ok(rows[id]) else Err(RecordNotFound)
    }

    /**
     * `UpdateItem`: rejects a missing name or author. `Save` treats the zero UUID as
     * "no primary key" and inserts, which the table refuses once a `Nil` row exists;
     * any other ID has the whole item written under it, whether or not a row was there.
     */
    method UpdateItem(item: Item) returns (err: Option<AppError>)
      requires Valid()
      modifies this
      ensures Valid()
      ensures !HasRequiredFields(item) ==> err == Some(FieldsRequired) && rows == old(rows)
      ensures HasRequiredFields(item) && item.id == Nil && Nil in old(rows) ==>
        err == Some(DuplicateKey) && rows == old(rows)
      ensures HasRequiredFields(item) && (item.id != Nil || Nil !in old(rows)) ==>
        err == None && rows == old(rows)[item.id := item]
    {
      if !HasRequiredFields(item) {
        return Some(FieldsRequired);
      }
      if item.id == Nil && Nil in rows {
        return Some(DuplicateKey);
      }
      rows := rows[item.id := item];
      err := None;
    }

    method DeleteItemByID(id: Uuid) returns (err: Option<AppError>)
      requires Valid()
      modifies this
      ensures Valid()
      ensures err == None && rows == old(rows) - {id}
    {
      rows := rows - {id};
      err := None;
    }

    method DeleteAllItems() returns (err: Option<AppError>)
      modifies this
      ensures Valid()
      ensures err == None && rows == map[]
    {
      rows := map[];
      err := None;
    }

    /** `HandleCreateItem`: 400 for bad JSON or missing fields, 201 with the stored item. */
    method HandleCreateItem(req: Request, freshId: Uuid) returns (resp: Response)
      requires Valid()
      requires freshId != Nil && freshId !in rows
      modifies this
      ensures Valid()
      ensures req.verb == "OPTIONS" ==> resp == Preflight && rows == old(rows)
      ensures req.verb != "OPTIONS" && (req.body.None? || !HasRequiredFields(req.body.value)) ==>
        resp.status == StatusBadRequest && rows == old(rows)
      ensures resp.status == StatusCreated <==>
        && req.verb != "OPTIONS" && req.body.Some? && HasRequiredFields(req.body.value)
        && AssignedId(req.body.value, freshId) !in old(rows)
      ensures resp.status == StatusCreated ==>
        var saved := req.body.value.(id := AssignedId(req.body.value, freshId));
        resp.body == ItemBody(saved) && rows == old(rows)[saved.id := saved]
      ensures resp.status != StatusCreated ==> rows == old(rows)
      ensures req.verb != "OPTIONS" && req.body.Some? && HasRequiredFields(req.body.value)
              && AssignedId(req.body.value, freshId) in old(rows) ==>
        resp == Response(StatusInternalServerError, Text(DuplicateKeyText))
    {
      if req.verb == "OPTIONS" {
        return Preflight;
      }
      if req.body.None? {
        return Response(StatusBadRequest, Text("Invalid JSON payload"));
      }
      var item := req.body.value;
      if !HasRequiredFields(item) {
        return Response(StatusBadRequest, Text(FieldsRequiredText));
      }
      var saved, err := CreateItem(item, freshId);
      if err.Some? {
        return Response(StatusInternalServerError, Text(DuplicateKeyText));
      }
      resp := Response(StatusCreated, ItemBody(saved));
    }

    /** `HandleGetAllItems`: every stored item, with the implicit 200. */
    method HandleGetAllItems(req: Request) returns (resp: Response)
      requires Valid()
      ensures req.verb == "OPTIONS" ==> resp == Preflight
      ensures req.verb != "OPTIONS" ==>
        && resp.status == StatusOK && resp.body.ItemList?
        && |resp.body.items| == |rows|
        && (forall id :: id in rows ==> rows[id] in resp.body.items)
        && (forall x :: x in resp.body.items ==> x.id in rows && rows[x.id] == x)
    {
      if req.verb == "OPTIONS" {
        return Preflight;
      }
      var items := GetAllItems();
      resp := Response(StatusOK, ItemList(items));
    }

    /** `HandleGetItemByID`: 400 for an unparseable "id", 404 for an absent row. */
    method HandleGetItemByID(req: Request, parse: string -> Option<Uuid>) returns (resp: Response)
      requires Valid()
      ensures req.verb == "OPTIONS" ==> resp == Preflight
      ensures req.verb != "OPTIONS" && parse(req.idParam).None? ==>
        resp == Response(StatusBadRequest, Text("Invalid ID"))
      ensures req.verb != "OPTIONS" && parse(req.idParam).Some? ==>
        var id := parse(req.idParam).value;
        if id in rows then resp == Response(StatusOK, ItemBody(rows[id]))
        else resp == Response(StatusNotFound, Text("Item not found"))
    {
      if req.verb == "OPTIONS" {
        return Preflight;
      }
      var parsed := parse(req.idParam);
      if parsed.None? {
        return Response(StatusBadRequest, Text("Invalid ID"));
      }
      var found := GetItemByID(parsed.value);
      if found.Err? {
        return Response(StatusNotFound, Text("Item not found"));
      }
      resp := Response(StatusOK, ItemBody(found.value));
    }

    /**
     * `HandleUpdateItem`: after validation the body's ID is replaced by a newly
     * generated one, so the save always adds a row and never changes an existing one.
     */
    method HandleUpdateItem(req: Request, freshId: Uuid) returns (resp: Response)
      requires Valid()
      requires freshId != Nil && freshId !in rows
      modifies this
      ensures Valid()
      ensures req.verb == "OPTIONS" ==> resp == Preflight && rows == old(rows)
      ensures req.verb != "OPTIONS" && (req.body.None? || !HasRequiredFields(req.body.value)) ==>
        resp.status == StatusBadRequest && rows == old(rows)
      ensures req.verb != "OPTIONS" && req.body.Some? && HasRequiredFields(req.body.value) ==>
        && resp == Response(StatusOK, ItemBody(req.body.value.(id := freshId)))
        && rows == old(rows)[freshId := req.body.value.(id := freshId)]
        && |rows| == |old(rows)| + 1
        && (forall id :: id in old(rows) ==> id in rows && rows[id] == old(rows)[id])
    {
      if req.verb == "OPTIONS" {
        return Preflight;
      }
      if req.body.None? {
        return Response(StatusBadRequest, Text("Invalid JSON payload"));
      }
      var item := req.body.value;
      if !HasRequiredFields(item) {
        return Response(StatusBadRequest, Text(FieldsRequiredText));
      }
      item := item.(id := freshId);
      var _ := UpdateItem(item);  // cannot fail: fields checked, and the ID is fresh and not Nil
      resp := Response(StatusOK, ItemBody(item));
    }

    /** `HandleDeleteItemByID`: 400 for an unparseable "id", else removes it and answers 204. */
    method HandleDeleteItemByID(req: Request, parse: string -> Option<Uuid>) returns (resp: Response)
      requires Valid()
      modifies this
      ensures Valid()
      ensures req.verb == "OPTIONS" ==> resp == Preflight && rows == old(rows)
      ensures req.verb != "OPTIONS" && parse(req.idParam).None? ==>
        resp == Response(StatusBadRequest, Text("Invalid ID")) && rows == old(rows)
      ensures req.verb != "OPTIONS" && parse(req.idParam).Some? ==>
        resp == Response(StatusNoContent, NoBody) && rows == old(rows) - {parse(req.idParam).value}
    {
      if req.verb == "OPTIONS" {
        return Preflight;
      }
      var parsed := parse(req.idParam);
      if parsed.None? {
        return Response(StatusBadRequest, Text("Invalid ID"));
      }
      var _ := DeleteItemByID(parsed.value);  // cannot fail on an in-memory table
      resp := Response(StatusNoContent, NoBody);
    }

    /** `HandleDeleteAllItems`: empties the table and answers 204. */
    method HandleDeleteAllItems(req: Request) returns (resp: Response)
      requires Valid()
      modifies this
      ensures Valid()
      ensures req.verb == "OPTIONS" ==> resp == Preflight && rows == old(rows)
      ensures req.verb != "OPTIONS" ==> resp == Response(StatusNoContent, NoBody) && rows == map[]
    {
      if req.verb == "OPTIONS" {
        return Preflight;
      }
      var _ := DeleteAllItems();  // cannot fail on an in-memory table
      resp := Response(StatusNoContent, NoBody);
    }
  }
}
